/**
 Guarantees of the desired-state protocol over every run: crashes, takeovers, late workers and foreign pushes included.
 */
module DesiredStateTheorems {
  import opened Identifiers
  import opened DesiredStateModel
  import opened DesiredStateStore
  import opened DesiredStateGit
  import opened DesiredStateProtocol
  import opened DesiredStateSafety
  import opened DesiredStateSteps
  import opened DesiredStateRuns

  // What only grows.

  ghost predicate Grown(s: State, s': State) {
    && (forall k | k in s.store :: k in s'.store && Advances(s.store[k], s'.store[k]))
    && (forall b | b in s.repos :: b in s'.repos && s.repos[b] <= s'.repos[b])
    && s.fenced.Keys <= s'.fenced.Keys
  }

  lemma PerformGrown(s: State, t: nat, op: Op, s': State)
    requires Inv(s) && t in s.threads && s'.repos == s.repos && s'.fenced == s.fenced
    requires s'.store == After(s.store, s.threads[t].lease, Perform(s.store, s.threads[t].lease, op, s.clock))
    ensures Grown(s, s')
  {
    hide Valid, Perform, Inv, SharedInv, OthersInv;
    ThreadAt(s, t);
    if Perform(s.store, s.threads[t].lease, op, s.clock).Ok? {
      PerformEffect(s.store, s.threads[t].lease, op, s.clock);
    }
  }

  lemma ClaimGrown(s: State, t: nat, k: string, owner: string, configDigest: string, duration: int, s': State)
    requires Inv(s) && ClaimStep(s, t, k, owner, configDigest, duration, s')
    ensures Grown(s, s') && k in s.store && s'.store[k].leaseEpoch == s.store[k].leaseEpoch + 1
  {
    hide StoreInv, RepoInv, SnapshotsInv, ThreadsInv, FencedLandings, Valid, ClaimArguments, FirstEligible,
      ClaimedCommand;
    ClaimOne(s.store, s.clock, k, owner, configDigest, duration);
  }

  /** Steps that leave the stored commands alone. */
  predicate Unstored(l: Label) {
    !l.PlanCreate? && !l.Claim? && !l.Bind? && !l.Acknowledge? && !l.Complete? && !l.Settle? && !l.Beat?
  }

  lemma UnstoredGrown(s: State, l: Label, s': State)
    requires Acts(s, l, s') && Unstored(l)
    ensures Grown(s, s')
  {
    hide SearchAnswer, PreconditionHolds, ActiveLease, HasBefore, HoldsContent, Observes, Disposition, SameFence,
      Mutated;
    assert s'.store == s.store;
  }

  lemma CreateGrown(s: State, p: Snapshot, id: string, target: Target, createdAt: Time, s': State)
    requires Inv(s) && PlanCreateStep(s, p, id, target, createdAt, s')
    ensures Grown(s, s')
  {
    hide Inv, Materialized;
    Created(s.store, Materialized(s.store, p, id, target, createdAt).command);
    CreatedID(s, p, id, target, createdAt);
  }

  lemma ActsGrown(s: State, l: Label, s': State)
    requires Inv(s) && Acts(s, l, s')
    ensures Grown(s, s')
  {
    hide Inv, Grown, Perform, After, PreconditionHolds, HasBefore, PlanCreateStep, ClaimStep, Disposition;
    hide ForeignPushStep, LoadStep, SeeHeadStep, InterruptStep, ResumeStep, RouteStep, PushStep, RejectPushStep,
      ConfirmStep, DecideStep;
    match l {
      case PlanCreate(p, id, target, createdAt) => CreateGrown(s, p, id, target, createdAt, s');
      case Claim(t, k, owner, configDigest, duration) => ClaimGrown(s, t, k, owner, configDigest, duration, s');
      case Bind(t, observedAt, replied) =>
        var HeadSeen(c, view) := s.threads[t].phase;
        PerformGrown(s, t, BindWriteBase(HeadOf(Prepared(s.repos, c, view)).id, observedAt), s');
      case Acknowledge(t, replied) => PerformGrown(s, t, MarkGitCommitted(s.threads[t].phase.revision), s');
      case Complete(t, replied) => PerformGrown(s, t, CompleteVerified(s.threads[t].phase.command.committedRevision),
        s');
      case Settle(t) =>
        PerformGrown(s, t, Disposition(s.threads[t].phase.current, s.threads[t].phase.error, s.clock), s');
      case Beat(t, duration, replied) => PerformGrown(s, t, Heartbeat(duration), s');
      case _ => UnstoredGrown(s, l, s');
    }
  }

  lemma CreatedID(s: State, p: Snapshot, id: string, target: Target, createdAt: Time)
    requires Inv(s) && p in s.snapshots && Materialized(s.store, p, id, target, createdAt).Planned?
    ensures Materialized(s.store, p, id, target, createdAt).command.plan.id == id
  {
    hide Valid, Materialized, RepoInv, ThreadsInv, FencedLandings, Retained, OneLive, Contiguous, Exclusive, Grounded;
    MaterializedPlan(s.store, p, id, target, createdAt);
  }

  lemma {:induction false} RunGrown(states: seq<State>, events: seq<Event>, m: nat, n: nat)
    requires IsRun(states, events) && m <= n < |states|
    ensures Grown(states[m], states[n])
    decreases n
  {
    hide Inv, Acts;
    if m < n {
      RunGrown(states, events, m, n - 1);
      RunInv(states, events, n - 1);
      var e := events[n - 1];
      assert Next(states[n - 1], e.action, e.now, states[n]);
      ClockInv(states[n - 1], e.now);
      ActsGrown(states[n - 1].(clock := e.now), e.action, states[n]);
      GrownTransitive(states[m], states[n - 1], states[n]);
    }
  }

  lemma GrownTransitive(s: State, r: State, u: State)
    requires Grown(s, r) && Grown(r, u)
    ensures Grown(s, u)
  {
    forall k | k in s.store
      ensures k in u.store && Advances(s.store[k], u.store[k])
    {
      AdvancesTransitive(s.store[k], r.store[k], u.store[k]);
    }
  }

  // 1. Exactly-once landing.

  /** The command's own bytes were committed at its recorded revision. */
  ghost predicate LandedAsRecorded(s: State, k: string)
    requires k in s.store
  {
    var c := s.store[k];
    && c.plan.platformBindingID in s.repos
    && exists i :: && 0 <= i < |s.repos[c.plan.platformBindingID]|
                   && s.repos[c.plan.platformBindingID][i].id == c.committedRevision
                   && s.repos[c.plan.platformBindingID][i].operation == k
                   && HoldsContent(s.repos[c.plan.platformBindingID][i].tree, c.plan.path, c.plan.content)
  }

  /** No two commits, on any branches, belong to one command. */
  ghost predicate AtMostOneCommit(repos: Repos) {
    forall b, d, i, j | b in repos && d in repos && 0 <= i < |repos[b]| && 0 <= j < |repos[d]|
                        && repos[b][i].operation == repos[d][j].operation != "" :: b == d && i == j
  }

  lemma LandingsUnique(s: State)
    requires SharedInv(s)
    ensures AtMostOneCommit(s.repos)
  {
    hide SharedInv, Valid, OneLive, Grounded, BasesKnown;
    Keyed(s);
    forall b: string, d: string, i: int, j: int | b in s.repos && d in s.repos && 0 <= i < |s.repos[b]|
      && 0 <= j < |s.repos[d]|
                   && s.repos[b][i].operation == s.repos[d][j].operation != ""
      ensures b == d && i == j
    {
      assert LandedAt(s.store, b, s.repos[b], i) && LandedAt(s.store, d, s.repos[d], j);
      OnlyLanding(s, b, s.repos[b][i].operation, i);
    }
  }

  /** The position at which a command's recorded revision is its own commit. */
  lemma ReceiptAt(s: State, k: string) returns (i: int)
    requires SharedInv(s) && k in s.store && s.store[k].committedRevision != "" && k != ""
    ensures var b := s.store[k].plan.platformBindingID;
            && b in s.repos && 0 <= i < |s.repos[b]| && s.repos[b][i].id == s.store[k].committedRevision
            && s.repos[b][i].operation == k
            && LandedAt(s.store, b, s.repos[b], i)
  {
    hide Valid, StoreInv, SnapshotsInv, FencedLandings, Lines, BasesKnown, BasesOrdered, LandedAt;
    var b := s.store[k].plan.platformBindingID;
    i :| 0 <= i < |s.repos[b]| && s.repos[b][i].id == s.store[k].committedRevision && s.repos[b][i].operation == k;
  }

  lemma CommittedLanded(s: State, k: string)
    requires SharedInv(s) && k in s.store && s.store[k].committedRevision != "" && k != ""
    ensures LandedAsRecorded(s, k)
  {
    hide SharedInv, Valid, PreconditionHolds;
    var i := ReceiptAt(s, k);
    assert HoldsContent(s.repos[s.store[k].plan.platformBindingID][i].tree, s.store[k].plan.path,
      s.store[k].plan.content);
  }

  lemma StateOf(s: State, k: string)
    requires Inv(s) && k in s.store
    ensures SharedInv(s) && k != "" && Valid(s.store[k]) && s.store[k].plan.id == k
  {
    hide Valid, RepoInv, ThreadsInv, FencedLandings, SnapshotsInv, OneLive, Contiguous, Exclusive, Grounded;
    ValidHasID(s.store[k]);
  }

  /**
   Every command is committed at most once; an acknowledged or verified one is on its branch at its recorded revision.
   */
  lemma ExactlyOnceLanding(states: seq<State>, events: seq<Event>, n: nat)
    requires IsRun(states, events) && n < |states|
    ensures AtMostOneCommit(states[n].repos)
    ensures forall k | k in states[n].store
            && (states[n].store[k].state == GitCommitted || states[n].store[k].state == Verified) ::
              LandedAsRecorded(states[n], k)
  {
    var s := states[n];
    RunInv(states, events, n);
    assert SharedInv(s);
    hide SharedInv, IsRun, Inv, AtMostOneCommit, LandedAsRecorded;
    LandingsUnique(s);
    forall k | k in s.store && (s.store[k].state == GitCommitted || s.store[k].state == Verified)
      ensures LandedAsRecorded(s, k)
    {
      StateOf(s, k);
      CommittedRevision(s.store[k]);
      CommittedLanded(s, k);
    }
  }

  lemma CommittedRevision(c: Command)
    requires Valid(c) && (c.state == GitCommitted || c.state == Verified)
    ensures c.committedRevision != ""
  {
  }

  // 2. Linear history.

  /** On a branch, the commits of an environment appear in strictly increasing generation order. */
  ghost predicate GenerationOrder(s: State) {
    forall b, i, j | b in s.repos && 0 <= i < j < |s.repos[b]|
                     && s.repos[b][i].operation in s.store && s.repos[b][j].operation in s.store
                     && s.repos[b][i].operation != "" && s.repos[b][j].operation != ""
                     && SameEnvironment(s.store[s.repos[b][i].operation], s.store[s.repos[b][j].operation]) ::
      s.store[s.repos[b][i].operation].plan.generation < s.store[s.repos[b][j].operation].plan.generation
  }

  lemma LandingOrder(s: State, b: string, i: int, j: int)
    requires SharedInv(s) && b in s.repos && 0 <= i < j < |s.repos[b]|
    requires LandedAt(s.store, b, s.repos[b], i) && LandedAt(s.store, b, s.repos[b], j)
    requires SameEnvironment(s.store[s.repos[b][i].operation], s.store[s.repos[b][j].operation])
    ensures s.store[s.repos[b][i].operation].plan.generation < s.store[s.repos[b][j].operation].plan.generation
  {
    hide Valid, SnapshotsInv, FencedLandings, Grounded, Contiguous, Exclusive, PreconditionHolds;
    var h := s.repos[b];
    var x, y := h[i].operation, h[j].operation;
    assert x != y;
    assert s.store[y].plan.generation < s.store[x].plan.generation ==>
             Ordered(h, s.store[y].writeBaseRevision, s.store[x].writeBaseRevision);
  }

  lemma LinearHistory(states: seq<State>, events: seq<Event>, n: nat)
    requires IsRun(states, events) && n < |states|
    ensures GenerationOrder(states[n])
  {
    var s := states[n];
    RunInv(states, events, n);
    assert SharedInv(s);
    hide SharedInv, IsRun, Inv, Valid, LandedAt;
    Keyed(s);
    forall b: string, i: int, j: int | b in s.repos && 0 <= i < j < |s.repos[b]|
                     && s.repos[b][i].operation in s.store && s.repos[b][j].operation in s.store
                     && s.repos[b][i].operation != "" && s.repos[b][j].operation != ""
                     && SameEnvironment(s.store[s.repos[b][i].operation], s.store[s.repos[b][j].operation])
      ensures s.store[s.repos[b][i].operation].plan.generation < s.store[s.repos[b][j].operation].plan.generation
    {
      LandingOrder(s, b, i, j);
    }
  }

  /** The verified command with the highest generation among those of an environment on a branch; empty for none. */
  ghost predicate LatestVerifiedOn(s: Commands, environmentID: string, b: string, v: string) {
    if v == "" then
      forall k | k in s && s[k].plan.environmentID == environmentID && s[k].plan.platformBindingID == b ::
        s[k].state != Verified
    else
      && v in s && s[v].plan.environmentID == environmentID && s[v].plan.platformBindingID == b
      && s[v].state == Verified
      && forall k | k in s && s[k].plan.environmentID == environmentID && s[k].plan.platformBindingID == b
         && s[k].state == Verified ::
           s[k].plan.generation <= s[v].plan.generation
  }

  /** A verified command of the same environment and branch is older than one whose write base is still the head. */
  lemma VerifiedIsOlder(s: State, k: string, v: string)
    requires SharedInv(s) && k in s.store && v in s.store && k != "" && v != "" && Valid(s.store[v])
    requires SameEnvironment(s.store[k], s.store[v])
             && s.store[k].plan.platformBindingID == s.store[v].plan.platformBindingID
    requires s.store[v].state == Verified && s.store[k].writeBaseRevision != "" && Branch(s.repos, s.store[k])
    requires HeadOf(BranchOf(s.repos, s.store[k])).id == s.store[k].writeBaseRevision
    ensures s.store[v].plan.generation < s.store[k].plan.generation
  {
    assert s.store[v].committedRevision != "";
    CommittedLanded(s, v);
    hide Valid, SharedInv, HoldsContent;
    var h := BranchOf(s.repos, s.store[k]);
    var i :| 0 <= i < |h| && h[i].operation == v;
    BehindHead(s, k, v, i);
  }

  lemma BehindHead(s: State, k: string, v: string, i: int)
    requires SharedInv(s) && k in s.store && v in s.store && v != "" && SameEnvironment(s.store[k], s.store[v])
    requires s.store[k].plan.platformBindingID == s.store[v].plan.platformBindingID && Branch(s.repos, s.store[k])
    requires s.store[k].writeBaseRevision != ""
    requires var h := BranchOf(s.repos, s.store[k]);
             HeadOf(h).id == s.store[k].writeBaseRevision && 0 <= i < |h| && h[i].operation == v
    ensures s.store[v].plan.generation < s.store[k].plan.generation
  {
    hide Valid, SnapshotsInv, FencedLandings, Grounded, Contiguous, Exclusive, PreconditionHolds, Mutated, Receipts,
      BasesKnown, Stored;
    var h := BranchOf(s.repos, s.store[k]);
    assert LandedAt(s.store, s.store[v].plan.platformBindingID, h, i);
    assert h[i - 1].id == s.store[v].writeBaseRevision && h[|h| - 1].id == s.store[k].writeBaseRevision;
    assert h[i - 1].id != h[|h| - 1].id;
    assert k != v;
    assert !Ordered(h, s.store[k].writeBaseRevision, s.store[v].writeBaseRevision);
  }

  lemma PushImage(s: State, t: nat, v: string)
    requires Inv(s) && t in s.threads && s.threads[t].phase.Pushing?
    requires var c := s.threads[t].phase.command;
             && Branch(s.repos, c) && HeadOf(BranchOf(s.repos, c)).id == CommandMutation(c).baseRevision
             && LatestVerifiedOn(s.store, c.plan.environmentID, c.plan.platformBindingID, v)
    ensures var c := s.threads[t].phase.command;
            if v == "" then c.plan.path !in HeadOf(BranchOf(s.repos, c)).tree
            else HoldsContent(HeadOf(BranchOf(s.repos, c)).tree, c.plan.path, s.store[v].plan.content)
  {
    hide Inv, SharedInv, OthersInv, Valid, Looked, LandedAt;
    ThreadAt(s, t);
    var Pushing(c, view) := s.threads[t].phase;
    var k := s.threads[t].lease.commandID;
    CopyOf(s, s.threads[t].lease, c, view);
    assert c.plan.id == k && s.store[k].plan == c.plan && s.store[k].writeBaseRevision == c.writeBaseRevision;
    PushLands(s, t, c, view, "");
    LandsFrom(s, c.plan.platformBindingID, c, "");
    assert PreconditionHolds(HeadOf(BranchOf(s.repos, c)).tree, CommandMutation(c));
    ImageOfVerified(s, k, HeadOf(BranchOf(s.repos, c)).tree, v);
  }

  lemma LandsFrom(s: State, b: string, c: Command, commitID: string)
    requires Branch(s.repos, c) && b == c.plan.platformBindingID && c.plan.id in s.store
             && s.store[c.plan.id].plan == c.plan
    requires s.store[c.plan.id].writeBaseRevision == c.writeBaseRevision
    requires var h, m := BranchOf(s.repos, c), CommandMutation(c);
             LandedAt(s.store, b, h + [GitCommit(commitID, m.operationID, Mutated(HeadOf(h).tree, m))], |h|)
    ensures PreconditionHolds(HeadOf(BranchOf(s.repos, c)).tree, CommandMutation(c))
  {
    var h, m := BranchOf(s.repos, c), CommandMutation(c);
    assert (h + [GitCommit(commitID, m.operationID, Mutated(HeadOf(h).tree, m))])[|h| - 1] == HeadOf(h);
    assert CommandMutation(s.store[c.plan.id]) == m;
  }

  /** An image allowed by a command's precondition is the content of the latest verified command. */
  lemma ImageOfVerified(s: State, k: string, tree: map<string, string>, v: string)
    requires SharedInv(s) && k in s.store && k != "" && s.store[k].writeBaseRevision != ""
             && Branch(s.repos, s.store[k])
    requires HeadOf(BranchOf(s.repos, s.store[k])).id == s.store[k].writeBaseRevision
    requires PreconditionHolds(tree, CommandMutation(s.store[k]))
    requires LatestVerifiedOn(s.store, s.store[k].plan.environmentID, s.store[k].plan.platformBindingID, v)
    ensures if v == "" then s.store[k].plan.path !in tree
            else HoldsContent(tree, s.store[k].plan.path, s.store[v].plan.content)
  {
    hide SharedInv, OneLive, Lines, Operations, BasesKnown, Valid;
    Keyed(s);
    var p := s.store[k].plan;
    assert Follows(s.store, p);
    if v != "" {
      VerifiedIsOlder(s, k, v);
    }
    if p.precondition == MatchETag {
      var j :| VerifiedBelow(s.store, p.environmentID, p.generation, j) && Replaces(p, s.store[j].plan);
      PlanDigest(s.store[j]);
      GenerationNames(s, j, v);
    } else {
      ETagFree(s.store[k]);
    }
  }

  lemma PlanDigest(c: Command)
    ensures Valid(c) ==> c.plan.contentSHA256 == ContentDigest(c.plan.content)
  {
  }

  lemma ETagFree(c: Command)
    ensures Valid(c) ==> (c.plan.precondition == CreateIfAbsent <==> c.plan.expectedETag == NoETag)
  {
  }

  lemma GenerationNames(s: State, j: string, v: string)
    requires SharedInv(s) && j in s.store && (v == "" || v in s.store)
    ensures v != "" && SameEnvironment(s.store[j], s.store[v]) &&
            s.store[j].plan.generation == s.store[v].plan.generation ==>
              j == v
  {
    hide Valid, RepoInv, SnapshotsInv, FencedLandings, Grounded, Contiguous, Exclusive;
  }

  /** The branch head holds, at the command's path, the latest verified content; nothing if nothing was verified. */
  ghost predicate HeadIsVerifiedImage(store: Commands, repos: Repos, c: Command) {
    && Branch(repos, c)
    && forall v | LatestVerifiedOn(store, c.plan.environmentID, c.plan.platformBindingID, v) ::
         if v == "" then c.plan.path !in HeadOf(BranchOf(repos, c)).tree
         else HoldsContent(HeadOf(BranchOf(repos, c)).tree, c.plan.path, store[v].plan.content)
  }

  lemma PushOnVerifiedImage(s: State, t: nat, commitID: string, replied: bool, s': State)
    requires Inv(s) && PushStep(s, t, commitID, replied, s')
    ensures t in s.threads && s.threads[t].phase.Pushing?
            && HeadIsVerifiedImage(s.store, s.repos, s.threads[t].phase.command)
  {
    hide Inv, LatestVerifiedOn, HoldsContent, IsCommit, Mutated, ActiveLease, HasBefore;
    var c := s.threads[t].phase.command;
    forall v | LatestVerifiedOn(s.store, c.plan.environmentID, c.plan.platformBindingID, v)
      ensures if v == "" then c.plan.path !in HeadOf(BranchOf(s.repos, c)).tree
              else v in s.store && HoldsContent(HeadOf(BranchOf(s.repos, c)).tree, c.plan.path, s.store[v].plan.content)
    {
      LatestIsStored(s.store, c.plan.environmentID, c.plan.platformBindingID, v);
      PushImage(s, t, v);
    }
  }

  lemma LatestIsStored(s: Commands, environmentID: string, b: string, v: string)
    requires LatestVerifiedOn(s, environmentID, b, v)
    ensures v == "" || v in s
  {
  }

  /** Just before a commit lands, the path holds the latest verified content, or is absent if nothing was verified. */
  lemma LandsOnVerifiedImage(states: seq<State>, events: seq<Event>, n: nat)
    requires IsRun(states, events) && n < |events| && events[n].action.Push?
    ensures var s, t := states[n], events[n].action.t;
            t in s.threads && s.threads[t].phase.Pushing?
              && HeadIsVerifiedImage(s.store, s.repos, s.threads[t].phase.command)
  {
    hide Inv, HeadIsVerifiedImage, PushStep;
    var e := events[n];
    assert Next(states[n], e.action, e.now, states[n + 1]);
    hide IsRun;
    RunInv(states, events, n);
    ClockInv(states[n], e.now);
    PushOnVerifiedImage(states[n].(clock := e.now), e.action.t, e.action.commitID, e.action.replied, states[n + 1]);
  }

  /** A planner's stale snapshot cannot create a command: whatever was created since has taken its generation. */
  lemma StaleSnapshotRefused(states: seq<State>, events: seq<Event>, m: nat, n: nat, p: Snapshot, k: string,
                             id: string, target: Target, createdAt: Time)
    requires IsRun(states, events) && m <= n < |states| && p in states[m].snapshots
    requires k in states[n].store && k !in states[m].store && states[n].store[k].plan.environmentID == p.environmentID
    requires p in states[n].snapshots && Materialized(states[n].store, p, id, target, createdAt).Planned?
    ensures CreateOutcome(states[n].store, Materialized(states[n].store, p, id, target, createdAt).command) != Ok(true)
  {
    RunInv(states, events, m);
    RunInv(states, events, n);
    RunGrown(states, events, m, n);
    hide Materialized, CreateOutcome, IsRun, Valid, RepoInv, ThreadsInv, FencedLandings, Exclusive, Grounded;
    NewerThanSnapshot(states[m].store, states[n].store, p, k);
    StalePlanRefused(states[n].store, p, id, target, createdAt, k);
  }

  lemma NewerThanSnapshot(s: Commands, s': Commands, p: Snapshot, k: string)
    requires OneLive(s') && Contiguous(s) && Retained(s, p) && Retained(s', p)
    requires forall j | j in s :: j in s' && Advances(s[j], s'[j])
    requires k in s' && k !in s && s'[k].plan.environmentID == p.environmentID && Valid(s'[k])
    ensures s'[k].plan.generation > SnapshotGeneration(s', p)
  {
    Numbered(s'[k]);
    hide Valid;
    assert !HasGeneration(s, p.environmentID, s'[k].plan.generation);
  }

  // 3. Safe abandonment.

  /** Some branch holds a commit of the command. */
  ghost predicate Landed(repos: Repos, k: string) {
    exists b, i :: b in repos && 0 <= i < |repos[b]| && repos[b][i].operation == k
  }

  /** Event `i` is a push by a worker that leases the command. */
  ghost predicate Pushes(states: seq<State>, events: seq<Event>, i: nat, k: string)
    requires i < |events| < |states|
  {
    && events[i].action.Push? && events[i].action.t in states[i].threads
    && states[i].threads[events[i].action.t].lease.commandID == k
  }

  /** At that push the worker's lease was the command's active one. */
  ghost predicate UnderLease(states: seq<State>, events: seq<Event>, i: nat, k: string)
    requires i < |events| < |states| && Pushes(states, events, i, k)
  {
    k in states[i].store && ActiveLease(states[i].store[k], states[i].threads[events[i].action.t].lease, events[i].now)
  }

  /** Only a push or a foreign push changes a branch, and no step forgets a landing. */
  lemma QuietStep(s: State, l: Label, s': State)
    requires Acts(s, l, s') && !l.Push?
    ensures s'.fenced == s.fenced
    ensures l.ForeignPush? || s'.repos == s.repos
  {
    hide Perform, Materialized, ClaimArguments, FirstEligible, ClaimedCommand, SearchAnswer, PreconditionHolds,
      ActiveLease;
    hide CreateOutcome, After, Observes, HasBefore, HoldsContent, CommandMutation, Disposition;
  }

  /**
   A push adds a commit of the command its worker leases, on that command's branch; under the active lease it is
   remembered.
   */
  lemma PushLandsOwn(s: State, t: nat, commitID: string, replied: bool, s': State)
    requires Inv(s) && PushStep(s, t, commitID, replied, s')
    ensures var k := s.threads[t].lease.commandID;
            && k in s.store && (ActiveLease(s.store[k], s.threads[t].lease, s.clock) ==> k in s'.fenced)
            && exists b: string, c: GitCommit ::
               b in s.repos && c.operation == k && s'.repos == s.repos[b := s.repos[b] + [c]]
  {
    hide Inv, SharedInv, OthersInv, Valid, Looked, PreconditionHolds, Mutated, ActiveLease, HasBefore;
    ThreadAt(s, t);
    var Pushing(c, view) := s.threads[t].phase;
    CopyOf(s, s.threads[t].lease, c, view);
    var b := c.plan.platformBindingID;
    assert exists x: GitCommit :: x.operation == c.plan.id && s'.repos == s.repos[b := s.repos[b] + [x]];
  }

  lemma AppendLanded(repos: Repos, b: string, c: GitCommit, k: string)
    requires b in repos
    ensures Landed(repos[b := repos[b] + [c]], k) <==> Landed(repos, k) || c.operation == k
  {
    var repos': Repos := repos[b := repos[b] + [c]];
    if Landed(repos, k) {
      var d, i :| d in repos && 0 <= i < |repos[d]| && repos[d][i].operation == k;
      assert repos'[d][i].operation == k;
    }
    assert repos'[b][|repos[b]|] == c;
    if Landed(repos', k) {
      var d, i :| d in repos' && 0 <= i < |repos'[d]| && repos'[d][i].operation == k;
      assert d == b && i == |repos[b]| ==> c.operation == k;
      assert !(d == b && i == |repos[b]|) ==> repos[d][i].operation == k;
    }
  }

  lemma ActsLanded(s: State, l: Label, s': State, k: string)
    requires Inv(s) && Acts(s, l, s') && k != ""
    ensures Landed(s'.repos, k) <==> Landed(s.repos, k) || (l.Push? && s.threads[l.t].lease.commandID == k)
  {
    hide Inv, Landed, ActiveLease, HasBefore;
    if l.Push? {
      PushLandsOwn(s, l.t, l.commitID, l.replied, s');
      var b: string, c: GitCommit :| b in s.repos && c.operation == s.threads[l.t].lease.commandID
        && s'.repos == s.repos[b := s.repos[b] + [c]];
      AppendLanded(s.repos, b, c, k);
    } else {
      QuietStep(s, l, s');
      if l.ForeignPush? {
        AppendLanded(s.repos, l.binding, l.foreign, k);
      }
    }
  }

  lemma NothingLanded(s: State, k: string)
    requires Init(s) && k != ""
    ensures !Landed(s.repos, k)
  {
  }

  /** A command has a commit exactly when some worker leasing it pushed. */
  lemma {:induction false} LandedByPush(states: seq<State>, events: seq<Event>, n: nat, k: string)
    requires IsRun(states, events) && n < |states| && k != ""
    ensures Landed(states[n].repos, k) <==> exists i: nat :: i < n && Pushes(states, events, i, k)
  {
    hide Inv, Acts, Landed;
    if n == 0 {
      NothingLanded(states[0], k);
    } else {
      LandedByPush(states, events, n - 1, k);
      RunInv(states, events, n - 1);
      var e := events[n - 1];
      assert Next(states[n - 1], e.action, e.now, states[n]);
      ClockInv(states[n - 1], e.now);
      PushingThread(states[n - 1].(clock := e.now), e.action, states[n]);
      ActsLanded(states[n - 1].(clock := e.now), e.action, states[n], k);
      assert Pushes(states, events, n - 1, k) <==>
        e.action.Push? && states[n - 1].threads[e.action.t].lease.commandID == k;
    }
  }

  lemma PushingThread(s: State, l: Label, s': State)
    requires Acts(s, l, s')
    ensures l.Push? ==> l.t in s.threads
  {
  }

  lemma FencedNeverAbandoned(states: seq<State>, events: seq<Event>, m: nat, n: nat, k: string)
    requires IsRun(states, events) && m <= n < |states| && k in states[m].fenced
    ensures k in states[n].store && !Abandoned(states[n].store[k].state)
  {
    RunInv(states, events, n);
    RunGrown(states, events, m, n);
    hide IsRun, StoreInv, RepoInv, ThreadsInv, SnapshotsInv;
  }

  /** A command whose commit landed under its active lease is never failed or superseded afterwards. */
  lemma LandedNeverAbandoned(states: seq<State>, events: seq<Event>, m: nat, n: nat, k: string)
    requires IsRun(states, events) && m < n < |states| && Pushes(states, events, m, k)
             && UnderLease(states, events, m, k)
    ensures k in states[n].store && !Abandoned(states[n].store[k].state)
  {
    hide Inv, ActiveLease, PushStep;
    var e := events[m];
    assert Next(states[m], e.action, e.now, states[m + 1]);
    RunInv(states, events, m);
    ClockInv(states[m], e.now);
    PushRemembered(states[m].(clock := e.now), e.action.t, e.action.commitID, e.action.replied, states[m + 1]);
    FencedNeverAbandoned(states, events, m + 1, n, k);
  }

  lemma PushRemembered(s: State, t: nat, commitID: string, replied: bool, s': State)
    requires Inv(s) && PushStep(s, t, commitID, replied, s')
    ensures var k := s.threads[t].lease.commandID;
            k in s.store && (ActiveLease(s.store[k], s.threads[t].lease, s.clock) ==> k in s'.fenced)
  {
    hide Inv, ActiveLease, PushStep;
    PushLandsOwn(s, t, commitID, replied, s');
  }

  /** A failed or superseded command has a commit exactly when a worker pushed it after losing its lease. */
  lemma AbandonedLanding(states: seq<State>, events: seq<Event>, n: nat, k: string)
    requires IsRun(states, events) && n < |states| && k in states[n].store && Abandoned(states[n].store[k].state)
    ensures Landed(states[n].repos, k) <==>
              exists i: nat :: i < n && Pushes(states, events, i, k) && !UnderLease(states, events, i, k)
  {
    RunInv(states, events, n);
    StateOf(states[n], k);
    hide IsRun, Inv, Landed, SharedInv, Valid, Pushes, UnderLease;
    LandedByPush(states, events, n, k);
    if Landed(states[n].repos, k) {
      var i: nat :| i < n && Pushes(states, events, i, k);
      if UnderLease(states, events, i, k) {
        LandedNeverAbandoned(states, events, i, n, k);
      }
    }
  }

  /** Once its commit is acknowledged, a command can only stay so or become verified. */
  lemma CommittedOnlyVerifies(states: seq<State>, events: seq<Event>, m: nat, n: nat, k: string)
    requires IsRun(states, events) && m <= n < |states|
    requires k in states[m].store && states[m].store[k].state == GitCommitted
    ensures k in states[n].store && (states[n].store[k].state == GitCommitted || states[n].store[k].state == Verified)
  {
    RunGrown(states, events, m, n);
    hide IsRun;
  }

  // 4. Leases.

  /** At every moment at most one command per platform binding has an unexpired lease. */
  lemma LeaseExclusion(states: seq<State>, events: seq<Event>, n: nat, now: Time)
    requires IsRun(states, events) && n < |states| && now >= states[n].clock
    ensures Exclusive(states[n].store, now)
  {
    RunInv(states, events, n);
    ClockInv(states[n], now);
    hide IsRun;
  }

  lemma ClaimRaisesEpoch(states: seq<State>, events: seq<Event>, n: nat)
    requires IsRun(states, events) && n < |events| && events[n].action.Claim?
    ensures var k := events[n].action.id;
            && k in states[n].store && k in states[n + 1].store
            && states[n + 1].store[k].leaseEpoch == states[n].store[k].leaseEpoch + 1
  {
    var e := events[n];
    assert Next(states[n], e.action, e.now, states[n + 1]);
    RunInv(states, events, n);
    ClockInv(states[n], e.now);
    hide IsRun, Inv;
    ClaimGrown(states[n].(clock := e.now), e.action.t, e.action.id, e.action.owner, e.action.configDigest,
      e.action.duration, states[n + 1]);
  }

  /** Of two claims of a command, whatever happens in between, the later one has the higher epoch. */
  lemma EpochsStrictlyIncrease(states: seq<State>, events: seq<Event>, m: nat, n: nat)
    requires IsRun(states, events) && m < n < |events| && events[m].action.Claim? && events[n].action.Claim?
    requires events[m].action.id == events[n].action.id
    ensures var k := events[m].action.id;
            && k in states[m + 1].store && k in states[n + 1].store
            && states[m + 1].store[k].leaseEpoch < states[n + 1].store[k].leaseEpoch
  {
    ClaimRaisesEpoch(states, events, m);
    ClaimRaisesEpoch(states, events, n);
    RunGrown(states, events, m + 1, n);
    hide IsRun;
  }

  /** A lease from an older epoch can never again change the store. */
  lemma OldEpochIsFenced(states: seq<State>, events: seq<Event>, m: nat, n: nat, lease: Lease, op: Op, now: Time)
    requires IsRun(states, events) && m <= n < |states|
    requires lease.commandID in states[m].store && lease.epoch < states[m].store[lease.commandID].leaseEpoch
    ensures Perform(states[n].store, lease, op, now).Err?
  {
    RunInv(states, events, n);
    RunGrown(states, events, m, n);
    StateOf(states[n], lease.commandID);
    hide IsRun, Inv, SharedInv;
    if Perform(states[n].store, lease, op, now).Ok? {
      PerformEffect(states[n].store, lease, op, now);
    }
  }

  // 5. Reachable stores.

  /** Every stored command is valid; an environment has generations 1..n and only the last may be live. */
  lemma ReachableStore(states: seq<State>, events: seq<Event>, n: nat)
    requires IsRun(states, events) && n < |states|
    ensures WellKeyed(states[n].store) && forall k | k in states[n].store :: Valid(states[n].store[k])
    ensures OneLive(states[n].store) && Contiguous(states[n].store) && Grounded(states[n].store)
  {
    RunInv(states, events, n);
    hide IsRun, Valid, RepoInv, ThreadsInv, FencedLandings, SnapshotsInv, OneLive, Contiguous, Grounded, Exclusive;
  }

  /**
   What was accepted, and once set the write base and the committed revision, never change; terminal commands are
   frozen.
   */
  lemma NeverRewritten(states: seq<State>, events: seq<Event>, m: nat, n: nat, k: string)
    requires IsRun(states, events) && m <= n < |states| && k in states[m].store
    ensures k in states[n].store && Advances(states[m].store[k], states[n].store[k])
  {
    RunGrown(states, events, m, n);
    hide IsRun;
  }
}
