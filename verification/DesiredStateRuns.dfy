/** The remaining steps, the invariant of every run, and the guarantees that follow from it. */
module DesiredStateRuns {
  import opened Identifiers
  import opened DesiredStateModel
  import opened DesiredStateStore
  import opened DesiredStateGit
  import opened DesiredStateProtocol
  import opened DesiredStateSafety
  import opened DesiredStateSteps

  // Steps inside one worker.

  lemma LoadInv(s: State, t: nat, s': State)
    requires Inv(s) && LoadStep(s, t, s')
    ensures Inv(s')
  {
    hide SharedInv, OthersInv, Inv, Valid;
    ThreadAt(s, t);
    if t in s'.threads {
      LocalInv(s, t, s'.threads[t], s');
    } else {
      GoneInv(s, t, s');
    }
  }

  lemma SeeHeadInv(s: State, t: nat, s': State)
    requires Inv(s) && SeeHeadStep(s, t, s')
    ensures Inv(s')
  {
    hide SharedInv, OthersInv, Inv, Valid;
    ThreadAt(s, t);
    var c := s.threads[t].phase.command;
    SeesEverything(s, s.threads[t].lease, c);
    LocalInv(s, t, s'.threads[t], s');
  }

  /** A view of the whole branch shows every earlier write base and every landing. */
  lemma SeesEverything(s: State, lease: Lease, c: Command)
    requires SharedInv(s) && Copy(s.store, lease, c) && Branch(s.repos, c) && lease.commandID != ""
    ensures Looked(s.store, s.repos, s.fenced, lease, c, |BranchOf(s.repos, c)|)
  {
    hide StoreInv, SnapshotsInv, Operations, Receipts, BasesOrdered, Lines, Valid, Abandoned, HasBefore,
      OperationBefore;
  }

  lemma InterruptInv(s: State, t: nat, e: WriteError, s': State)
    requires Inv(s) && InterruptStep(s, t, e, s')
    ensures Inv(s')
  {
    hide Inv;
    LocalInv(s, t, s'.threads[t], s');
  }

  lemma PreparedHas(h: History, view: int, id: string)
    requires 0 < view <= |h| && HasBefore(h[..view], view, id)
    ensures HasBefore(h, view, id)
  {
    var i :| 0 <= i < view && i < |h[..view]| && h[..view][i].id == id;
    assert h[i].id == id;
  }

  lemma ResumeInv(s: State, t: nat, s': State)
    requires Inv(s) && ResumeStep(s, t, s')
    ensures Inv(s')
  {
    hide SharedInv, OthersInv, Inv, Valid, HasBefore, Looked;
    ThreadAt(s, t);
    var HeadSeen(c, view) := s.threads[t].phase;
    PreparedHas(BranchOf(s.repos, c), view, c.writeBaseRevision);
    LocalInv(s, t, s'.threads[t], s');
  }

  lemma ConfirmInv(s: State, t: nat, s': State)
    requires Inv(s) && ConfirmStep(s, t, s')
    ensures Inv(s')
  {
    hide SharedInv, OthersInv, Inv, Valid;
    ThreadAt(s, t);
    LocalInv(s, t, s'.threads[t], s');
  }

  lemma DecideInv(s: State, t: nat, s': State)
    requires Inv(s) && DecideStep(s, t, s')
    ensures Inv(s')
  {
    hide SharedInv, OthersInv, Inv, Valid;
    ThreadAt(s, t);
    if t in s'.threads {
      LocalInv(s, t, s'.threads[t], s');
    } else {
      GoneInv(s, t, s');
    }
  }

  // Looking for a landing.

  /** A landing of a stored command changes its path, so a search of the history can see it. */
  lemma LandingTouches(s: State, b: string, i: int)
    requires SharedInv(s) && b in s.repos && 0 <= i < |s.repos[b]| && LandedAt(s.store, b, s.repos[b], i)
    ensures i > 0 && Touches(s.repos[b], i, s.store[s.repos[b][i].operation].plan.path)
  {
    hide RepoInv, SnapshotsInv, FencedLandings, OneLive, Contiguous, Exclusive;
    var k := s.repos[b][i].operation;
    var p := s.store[k].plan;
    assert Follows(s.store, p);
    if p.precondition == MatchETag {
      assert ValidPlan(p);
      var j :| VerifiedBelow(s.store, p.environmentID, p.generation, j) && Replaces(p, s.store[j].plan);
      assert ValidPlan(s.store[j].plan);
    }
  }

  /** If a landing is in view the search cannot answer that there is none. */
  lemma LandingFound(s: State, lease: Lease, c: Command, view: int, i: int, search: Search)
    requires SharedInv(s) && Copy(s.store, lease, c) && Sees(s.repos, c, view) && c.writeBaseRevision != ""
    requires 0 <= i < view && BranchOf(s.repos, c)[i].operation == lease.commandID != ""
    requires SearchAnswer(Prepared(s.repos, c, view), CommandMutation(c), search)
    ensures search != Absent
  {
    var b := c.plan.platformBindingID;
    var h, m := s.repos[b], CommandMutation(c);
    assert UniqueIds(h) && LandedAt(s.store, b, h, i) by { hide StoreInv, SnapshotsInv, FencedLandings; }
    LandingTouches(s, b, i);
    hide SharedInv, Valid, PreconditionHolds, Mutated;
    assert h[i - 1].id == m.baseRevision;
    CarriedIsFound(h, view, m, i, search);
  }

  /** A prepared history that holds a commit of the mutation right after its base does not answer absent. */
  lemma CarriedIsFound(h: History, view: int, m: Mutation, i: int, search: Search)
    requires 0 < i < view <= |h| && UniqueIds(h) && h[i - 1].id == m.baseRevision
    requires h[i].operation == m.operationID && Touches(h, i, m.path) && SearchAnswer(h[..view], m, search)
    ensures search != Absent
  {
    hide TouchesAfter;
    var v := h[..view];
    assert v[i] == h[i] && v[i - 1] == h[i - 1];
    assert BaseAt(v, m, i - 1) by {
      assert forall j | 0 <= j < i - 1 :: v[j] == h[j];
    }
    assert Carries(v, i - 1, i, m);
  }

  /** A revision found by the search is the command's own commit. */
  lemma FoundIsCommit(h: History, view: int, c: Command, revision: string)
    requires 0 < view <= |h| && UniqueIds(h) && c.writeBaseRevision != "" && HasBefore(h, view, c.writeBaseRevision)
    requires SearchAnswer(h[..view], CommandMutation(c), Found(revision))
    ensures CommitOf(h, c.plan.id, revision)
  {
    var v, m := h[..view], CommandMutation(c);
    var b :| 0 <= b < view && b < |h| && h[b].id == c.writeBaseRevision;
    assert v[b] == h[b];
    assert BaseAt(v, m, b) by {
      assert forall j | 0 <= j < b :: v[j] == h[j];
    }
    var i :| Carries(v, b, i, m) && v[i].id == revision;
    assert h[i] == v[i];
  }

  lemma FoundOnBranch(s: State, c: Command, view: int, revision: string)
    requires SharedInv(s) && Sees(s.repos, c, view) && c.writeBaseRevision != ""
    requires HasBefore(BranchOf(s.repos, c), view, c.writeBaseRevision)
    requires SearchAnswer(Prepared(s.repos, c, view), CommandMutation(c), Found(revision))
    ensures CommitOf(BranchOf(s.repos, c), c.plan.id, revision)
  {
    hide SharedInv, Valid, SearchAnswer, Operations, Grounded, BasesKnown, OneLive, CommitOf, HasBefore, WellKeyed;
    Keyed(s);
    FoundIsCommit(BranchOf(s.repos, c), view, c, revision);
  }

  lemma RoutePhase(s: State, t: nat, search: Search, s': State)
    requires Inv(s) && RouteStep(s, t, search, s')
    ensures PhaseInv(s.store, s.repos, s.fenced, s.threads[t].lease, s'.threads[t].phase)
  {
    hide Inv, OthersInv, SharedInv, Valid, SearchAnswer, Ahead, Caught, CommitOf, OperationBefore, PreconditionHolds,
      HoldsContent;
    hide DistinctEpochs, HasBefore, Advances, ActiveLease;
    ThreadAt(s, t);
    var lease := s.threads[t].lease;
    var Ready(c, view) := s.threads[t].phase;
    assert HeadOf(Prepared(s.repos, c, view)) == BranchOf(s.repos, c)[view - 1];
    match s'.threads[t].phase {
      case Landed(_, revision, _) => FoundOnBranch(s, c, view, revision);
      case Erred(e) =>
        if e == WriteNotFound {
          NotFoundUnlanded(s, lease, c, view, search);
        }
      case _ =>
    }
  }

  lemma NotFoundUnlanded(s: State, lease: Lease, c: Command, view: int, search: Search)
    requires SharedInv(s) && Looked(s.store, s.repos, s.fenced, lease, c, view) && c.writeBaseRevision != ""
             && lease.commandID != ""
    requires SearchAnswer(Prepared(s.repos, c, view), CommandMutation(c), search)
    ensures search == Absent ==> Unlanded(s.store, s.fenced, lease)
  {
    hide SharedInv, SearchAnswer, Ahead;
    if lease.commandID in s.fenced && CurrentEpoch(s.store, lease) {
      var i :| 0 <= i < view && i < |BranchOf(s.repos, c)| && BranchOf(s.repos, c)[i].operation == lease.commandID;
      LandingFound(s, lease, c, view, i, search);
    }
  }

  lemma RouteInv(s: State, t: nat, search: Search, s': State)
    requires Inv(s) && RouteStep(s, t, search, s')
    ensures Inv(s')
  {
    hide Inv, PhaseInv, SearchAnswer;
    RoutePhase(s, t, search, s');
    LocalInv(s, t, s'.threads[t], s');
  }

  // Commits.

  lemma OrderedGrows(h: History, x: string, y: string, c: GitCommit)
    requires Ordered(h, x, y) && HasBefore(h, |h|, x) && HasBefore(h, |h|, y) && !HasBefore(h, |h|, c.id)
    ensures Ordered(h + [c], x, y)
  {
    var h' := h + [c];
    assert forall i | 0 <= i < |h'| && (h'[i].id == x || h'[i].id == y) :: i < |h| && h'[i] == h[i];
  }

  /** A branch grows by a fresh commit that is either foreign or a landing. */
  lemma AppendRepo(s: Commands, repos: Repos, b: string, c: GitCommit)
    requires RepoInv(s, repos) && b in repos && !HasBefore(repos[b], |repos[b]|, c.id)
    requires c.operation != "" ==> LandedAt(s, b, repos[b] + [c], |repos[b]|)
    ensures RepoInv(s, repos[b := repos[b] + [c]])
  {
    var h, h' := repos[b], repos[b] + [c];
    var repos' := repos[b := h'];
    assert h <= h' && forall i | 0 <= i < |h| :: h'[i] == h[i];
    assert UniqueIds(h') by {
      assert forall i | 0 <= i < |h| :: h[i].id != c.id;
    }
    assert BasesKnown(s, repos') by {
      forall k | k in s && s[k].writeBaseRevision != ""
        ensures OnBranch(repos', s[k].plan.platformBindingID, s[k].writeBaseRevision)
      {
        if s[k].plan.platformBindingID == b {
          HasBeforeGrows(h, h', |h|, s[k].writeBaseRevision);
          var i :| 0 <= i < |h| && h'[i].id == s[k].writeBaseRevision;
        }
      }
    }
    AppendOperations(s, repos, b, c);
    assert Receipts(s, repos') by {
      forall k | k in s && s[k].committedRevision != ""
        ensures CommitOf(repos'[s[k].plan.platformBindingID], k, s[k].committedRevision)
      {
        if s[k].plan.platformBindingID == b {
          CommitGrows(h, h', k, s[k].committedRevision);
        }
      }
    }
    AppendOrdered(s, repos, b, c);
  }

  lemma AppendOperations(s: Commands, repos: Repos, b: string, c: GitCommit)
    requires Operations(s, repos) && b in repos
    requires c.operation != "" ==> LandedAt(s, b, repos[b] + [c], |repos[b]|)
    ensures Operations(s, repos[b := repos[b] + [c]])
  {
    var repos': Repos := repos[b := repos[b] + [c]];
    forall x: string, i: int | x in repos' && 0 <= i < |repos'[x]| && repos'[x][i].operation != ""
      ensures LandedAt(s, x, repos'[x], i)
    {
      if x != b || i < |repos[b]| {
        assert repos'[x][i] == repos[x][i];
        assert LandedAt(s, x, repos[x], i);
      }
    }
  }

  lemma AppendOrdered(s: Commands, repos: Repos, b: string, c: GitCommit)
    requires BasesOrdered(s, repos) && BasesKnown(s, repos) && b in repos && !HasBefore(repos[b], |repos[b]|, c.id)
    ensures BasesOrdered(s, repos[b := repos[b] + [c]])
  {
    hide Ordered, HasBefore;
    var repos': Repos := repos[b := repos[b] + [c]];
    forall j, k | j in s && k in s && Precedes(s[j].plan, s[k].plan) && s[j].writeBaseRevision != ""
                  && s[k].writeBaseRevision != "" && s[k].plan.platformBindingID in repos'
      ensures Ordered(repos'[s[k].plan.platformBindingID], s[j].writeBaseRevision, s[k].writeBaseRevision)
    {
      if s[k].plan.platformBindingID == b {
        assert OnBranch(repos, b, s[j].writeBaseRevision) && OnBranch(repos, b, s[k].writeBaseRevision);
        OrderedGrows(repos[b], s[j].writeBaseRevision, s[k].writeBaseRevision, c);
      }
    }
  }

  lemma AppendFenced(s: Commands, repos: Repos, fenced: Fenced, b: string, c: GitCommit)
    requires FencedLandings(s, repos, fenced) && b in repos
    ensures FencedLandings(s, repos[b := repos[b] + [c]], fenced)
  {
    var repos': Repos := repos[b := repos[b] + [c]];
    forall k | k in fenced
      ensures OperationBefore(repos'[s[k].plan.platformBindingID], |repos'[s[k].plan.platformBindingID]|, k)
    {
      var x := s[k].plan.platformBindingID;
      assert repos[x] <= repos'[x];
      var i :| 0 <= i < |repos[x]| && repos[x][i].operation == k;
      assert repos'[x][i].operation == k;
    }
  }

  lemma ForeignPushInv(s: State, b: string, c: GitCommit, s': State)
    requires Inv(s) && ForeignPushStep(s, b, c, s')
    ensures Inv(s')
  {
    hide StoreInv, RepoInv, SnapshotsInv, FencedLandings, Valid, ThreadInv;
    AppendRepo(s.store, s.repos, b, c);
    AppendFenced(s.store, s.repos, s.fenced, b, c);
    forall t | t in s.threads
      ensures ThreadInv(s'.store, s'.repos, s'.fenced, s.threads[t])
    {
      ThreadAt(s, t);
      ThreadGrows(s, b, c, s.threads[t]);
    }
  }

  lemma ThreadGrows(s: State, b: string, c: GitCommit, th: Thread)
    requires SharedInv(s) && ThreadInv(s.store, s.repos, s.fenced, th) && b in s.repos
    ensures ThreadInv(s.store, s.repos[b := s.repos[b] + [c]], s.fenced, th)
  {
    hide SharedInv, OneLive, Lines, Operations, Grounded, Valid, PhaseInv;
    Keyed(s);
    var repos' := s.repos[b := s.repos[b] + [c]];
    assert Evolves(s.store, s.repos, s.store, repos');
    ThreadStable(s.store, s.repos, s.fenced, s.store, repos', s.fenced, th);
  }

  /** A worker that is about to push has prepared the branch up to its write base. */
  lemma PushLands(s: State, t: nat, c: Command, view: int, commitID: string)
    requires Inv(s) && t in s.threads && s.threads[t].phase == Pushing(c, view) && Branch(s.repos, c)
    requires HeadOf(BranchOf(s.repos, c)).id == CommandMutation(c).baseRevision
    ensures var h, m := BranchOf(s.repos, c), CommandMutation(c);
            LandedAt(s.store, c.plan.platformBindingID,
              h + [GitCommit(commitID, m.operationID, Mutated(HeadOf(h).tree, m))], |h|)
  {
    hide SharedInv, OthersInv, Inv, PreconditionHolds, Mutated, Ahead, Caught, Valid;
    ThreadAt(s, t);
    var h, m := BranchOf(s.repos, c), CommandMutation(c);
    assert UniqueIds(h) by { Keyed(s); }
    assert view == |h|;
    var d := s.store[s.threads[t].lease.commandID];
    assert CommandMutation(d) == m;
    var h' := h + [GitCommit(commitID, m.operationID, Mutated(HeadOf(h).tree, m))];
    assert h'[|h| - 1] == h[|h| - 1];
  }

  lemma PushInv(s: State, t: nat, commitID: string, replied: bool, s': State)
    requires Inv(s) && PushStep(s, t, commitID, replied, s')
    ensures Inv(s')
  {
    hide StoreInv, RepoInv, SnapshotsInv, FencedLandings, Valid, OthersInv, LandedAt, Looked, PreconditionHolds,
      Mutated, Inv;
    ThreadAt(s, t);
    var Pushing(c, view) := s.threads[t].phase;
    var h, m, lease := BranchOf(s.repos, c), CommandMutation(c), s.threads[t].lease;
    var b := c.plan.platformBindingID;
    var g := GitCommit(commitID, m.operationID, Mutated(HeadOf(h).tree, m));
    PushLands(s, t, c, view, commitID);
    CopyOf(s, lease, c, view);
    AppendRepo(s.store, s.repos, b, g);
    AppendFenced(s.store, s.repos, s.fenced, b, g);
    PushFenced(s, lease, c, g, s'.fenced);
    PushOthers(s, t, c, g, s');
    assert (h + [g])[|h|] == g;
    assert CommitOf(h + [g], lease.commandID, commitID);
    Moved(s, t, s'.threads[t], s');
  }

  lemma CopyOf(s: State, lease: Lease, c: Command, view: int)
    requires Looked(s.store, s.repos, s.fenced, lease, c, view)
    ensures Copy(s.store, lease, c)
  {
  }

  lemma PushFenced(s: State, lease: Lease, c: Command, g: GitCommit, fenced': Fenced)
    requires Copy(s.store, lease, c) && Branch(s.repos, c) && Valid(s.store[lease.commandID])
             && g.operation == lease.commandID
    requires var repos' := s.repos[c.plan.platformBindingID := s.repos[c.plan.platformBindingID] + [g]];
             FencedLandings(s.store, repos', s.fenced)
    requires fenced' == if ActiveLease(s.store[lease.commandID], lease, s.clock)
                        then s.fenced[lease.commandID := lease.epoch] else s.fenced
    ensures FencedLandings(s.store, s.repos[c.plan.platformBindingID := s.repos[c.plan.platformBindingID] + [g]],
            fenced')
  {
    var h' := s.repos[c.plan.platformBindingID] + [g];
    assert h'[|h'| - 1] == g;
    assert OperationBefore(h', |h'|, lease.commandID);
  }

  /** Landing under an active lease means the pusher's epoch is current, so it is nobody else's. */
  lemma PushOthers(s: State, t: nat, c: Command, g: GitCommit, s': State)
    requires Inv(s) && t in s.threads && s.threads[t].lease.commandID == c.plan.id && Branch(s.repos, c)
    requires s'.store == s.store
             && s'.repos == s.repos[c.plan.platformBindingID := s.repos[c.plan.platformBindingID] + [g]]
    requires c.plan.id in s.store
    requires s'.fenced == if ActiveLease(s.store[c.plan.id], s.threads[t].lease, s.clock)
                          then s.fenced[c.plan.id := s.threads[t].lease.epoch] else s.fenced
    ensures OthersInv(s', s.threads, t)
  {
    ThreadAt(s, t);
    ActiveEpoch(s.store[c.plan.id], s.threads[t].lease, s.clock);
    hide Valid, StoreInv, RepoInv, SnapshotsInv, FencedLandings, ThreadInv, Inv, Evolves, Copy, SharedInv;
    AppendEvolves(s.store, s.repos, c.plan.platformBindingID, g);
    ThreadsStable(s, s', t);
  }

  lemma AppendEvolves(s: Commands, repos: Repos, b: string, g: GitCommit)
    requires b in repos
    ensures Evolves(s, repos, s, repos[b := repos[b] + [g]])
  {
  }

  lemma ActiveEpoch(c: Command, lease: Lease, now: Time)
    requires Valid(c)
    ensures ActiveLease(c, lease, now) ==> c.leaseEpoch == lease.epoch
  {
  }

  lemma RejectPushInv(s: State, t: nat, s': State)
    requires Inv(s) && RejectPushStep(s, t, s')
    ensures Inv(s')
  {
    hide SharedInv, OthersInv, Inv, Valid, PreconditionHolds;
    ThreadAt(s, t);
    var Pushing(c, view) := s.threads[t].phase;
    PushingUnlanded(s, s.threads[t].lease, c, view);
    LocalInv(s, t, s'.threads[t], s');
  }

  /** A view that ends at the write base does not show a landing, which would come right after it. */
  lemma PushingUnlanded(s: State, lease: Lease, c: Command, view: int)
    requires SharedInv(s) && Looked(s.store, s.repos, s.fenced, lease, c, view) && lease.commandID != ""
    requires c.writeBaseRevision != "" && BranchOf(s.repos, c)[view - 1].id == c.writeBaseRevision
    ensures Unlanded(s.store, s.fenced, lease)
  {
    hide SharedInv, Valid, Ahead;
    if lease.commandID in s.fenced {
      var h := BranchOf(s.repos, c);
      var i := FencedBound(s, lease.commandID);
      assert UniqueIds(h) by { Keyed(s); }
      assert h[i - 1].id == c.writeBaseRevision;
      assert i == view;
      OnlyLanding(s, c.plan.platformBindingID, lease.commandID, i);
    }
  }

  /** A command has at most one landing. */
  lemma OnlyLanding(s: State, b: string, k: string, i: int)
    requires SharedInv(s) && b in s.repos && 0 <= i < |s.repos[b]| && s.repos[b][i].operation == k && k != ""
    ensures forall j | 0 <= j < |s.repos[b]| && s.repos[b][j].operation == k :: j == i
  {
    hide SharedInv, Valid, OneLive, Grounded, BasesKnown;
    Keyed(s);
    assert LandedAt(s.store, b, s.repos[b], i);
    forall j | 0 <= j < |s.repos[b]| && s.repos[b][j].operation == k
      ensures j == i
    {
      assert LandedAt(s.store, b, s.repos[b], j);
    }
  }

  // Planning.

  lemma SnapshotRetained(s: Commands, clock: Time, p: Snapshot)
    requires Stored(s, clock) && Observes(s, p)
    ensures Retained(s, p)
  {
    hide Valid;
    forall k | k in s
      ensures k != ""
    {
      ValidHasID(s[k]);
    }
  }

  lemma PlanSnapshotInv(s: State, p: Snapshot, s': State)
    requires Inv(s) && Observes(s.store, p) && s' == s.(snapshots := s.snapshots + {p})
    ensures Inv(s')
  {
    hide Valid, RepoInv, ThreadsInv, FencedLandings, DistinctEpochs, OneLive, Contiguous, Grounded, Exclusive, Observes,
      Retained;
    SnapshotRetained(s.store, s.clock, p);
  }

  /** The fields of a planned command that do not depend on how it is numbered. */
  ghost predicate PlannedFrom(c: Command, id: string, target: Target, previous: Option<Command>, createdAt: Time) {
    && c.plan.id == id && c.plan.environmentID == target.environmentID
    && c.writeBaseRevision == "" && c.committedRevision == "" && c.lease == None && c.updatedAt == createdAt
    && (previous == None ==> c.plan.precondition == CreateIfAbsent)
    && (previous.Some? ==> c.plan.precondition == MatchETag && Replaces(c.plan, previous.value.plan))
  }

  lemma NewCommandPlan(id: string, target: Target, previous: Option<Command>, createdAt: Time)
    requires NewCommand(id, target, previous, createdAt).Planned?
    ensures var c := NewCommand(id, target, previous, createdAt).command;
            && Valid(c) && PlannedFrom(c, id, target, previous, createdAt)
            && c.plan.generation == if previous.Some? then previous.value.plan.generation + 1 else 1
  {
    hide ValidCounters, ValidWriteBase, ValidLease, ValidShape, IsUuid, IsCommit, IsDigest, IsKubeName, PlanMessage;
  }

  lemma RenumberedPlan(c: Command, latest: Option<Command>, id: string, target: Target, previous: Option<Command>,
      createdAt: Time)
    requires Valid(c) && PlannedFrom(c, id, target, previous, createdAt) && Renumbered(c, latest).Planned?
    ensures var d := Renumbered(c, latest).command;
            && PlannedFrom(d, id, target, previous, createdAt)
            && d.plan.generation == if latest.Some? && c.plan.generation <= latest.value.plan.generation
                                    then latest.value.plan.generation + 1 else c.plan.generation
  {
    hide Valid, PlanMessage;
  }

  /** What a planner submits: one past its snapshot's generation, guarded by the verified command it saw. */
  lemma MaterializedPlan(s: Commands, p: Snapshot, id: string, target: Target, createdAt: Time)
    requires Retained(s, p) && WellKeyed(s) && forall k | k in s :: Valid(s[k])
    requires Materialized(s, p, id, target, createdAt).Planned?
    ensures p.previousID == "" || p.previousID in s
    ensures var c := Materialized(s, p, id, target, createdAt).command;
            && PlannedFrom(c, id, target, if p.previousID == "" then None else Some(s[p.previousID]), createdAt)
            && c.plan.environmentID == p.environmentID && c.plan.generation == SnapshotGeneration(s, p) + 1
  {
    var previous := if p.previousID == "" then None else Some(s[p.previousID]);
    var latest := if p.latestID == "" then None else Some(s[p.latestID]);
    if latest.Some? {
      Numbered(latest.value);
    }
    if previous.Some? {
      Numbered(previous.value);
    }
    hide Valid, NewCommand, Renumbered, PlannedFrom;
    NewCommandPlan(id, target, previous, createdAt);
    var c := NewCommand(id, target, previous, createdAt).command;
    RenumberedPlan(c, latest, id, target, previous, createdAt);
    assert PlannedFrom(Materialized(s, p, id, target, createdAt).command, id, target, previous, createdAt);
  }

  lemma Numbered(c: Command)
    ensures Valid(c) ==> c.plan.generation > 0
  {
  }

  /** The generation check is an optimistic lock: a plan made before another command was created is refused. */
  lemma StalePlanRefused(s: Commands, p: Snapshot, id: string, target: Target, createdAt: Time, k: string)
    requires Retained(s, p) && WellKeyed(s) && forall j | j in s :: Valid(s[j])
    requires k in s && s[k].plan.environmentID == p.environmentID && s[k].plan.generation > SnapshotGeneration(s, p)
    requires Materialized(s, p, id, target, createdAt).Planned?
    ensures CreateOutcome(s, Materialized(s, p, id, target, createdAt).command) != Ok(true)
  {
    hide Valid, Materialized, Retained;
    MaterializedPlan(s, p, id, target, createdAt);
  }

  lemma CreateFollows(s: Commands, p: Snapshot, c: Command)
    requires Retained(s, p) && c.plan.environmentID == p.environmentID
             && c.plan.generation == SnapshotGeneration(s, p) + 1
    requires c.plan.id !in s && NextGeneration(s, c.plan.environmentID, c.plan.generation)
    requires p.previousID == "" ==> c.plan.precondition == CreateIfAbsent
    requires p.previousID != "" ==> c.plan.precondition == MatchETag && Replaces(c.plan, s[p.previousID].plan)
    ensures Follows(s[c.plan.id := c], c.plan)
  {
    var s' := s[c.plan.id := c];
    if p.previousID != "" {
      assert VerifiedBelow(s', c.plan.environmentID, c.plan.generation, p.previousID);
    }
  }

  lemma CreateGrounded(s: Commands, c: Command)
    requires Grounded(s) && c.plan.id !in s && NextGeneration(s, c.plan.environmentID, c.plan.generation)
    requires Follows(s[c.plan.id := c], c.plan)
    ensures Grounded(s[c.plan.id := c])
  {
    var s' := s[c.plan.id := c];
    forall k | k in s'
      ensures Follows(s', s'[k].plan)
    {
      if k != c.plan.id {
        FollowsUnchanged(s, s', s[k].plan);
      }
    }
  }

  lemma CreateContiguous(s: Commands, c: Command)
    requires Contiguous(s) && c.plan.id !in s && NextGeneration(s, c.plan.environmentID, c.plan.generation)
    ensures Contiguous(s[c.plan.id := c])
  {
    var s' := s[c.plan.id := c];
    forall k: string, g: int | k in s' && 1 <= g <= s'[k].plan.generation
      ensures HasGeneration(s', s'[k].plan.environmentID, g)
    {
      var e := s'[k].plan.environmentID;
      if k == c.plan.id && g == c.plan.generation {
        assert s'[k].plan.generation == g;
      } else {
        if k == c.plan.id {
          var j :| j in s && s[j].plan.environmentID == e && s[j].plan.generation == c.plan.generation - 1;
          assert HasGeneration(s, s[j].plan.environmentID, g);
        } else {
          assert HasGeneration(s, s[k].plan.environmentID, g);
        }
        var j :| j in s && s[j].plan.environmentID == e && s[j].plan.generation == g;
        assert s'[j] == s[j];
      }
    }
  }

  lemma CreateOneLive(s: Commands, c: Command)
    requires OneLive(s) && c.plan.id !in s && NoLive(s, c.plan.environmentID)
    requires NextGeneration(s, c.plan.environmentID, c.plan.generation)
    ensures OneLive(s[c.plan.id := c])
  {
  }

  lemma CreateStore(s: Commands, clock: Time, c: Command)
    requires StoreInv(s, clock) && Valid(c) && c.lease == None && c.updatedAt <= clock && c.plan.id !in s
    requires NoLive(s, c.plan.environmentID) && NextGeneration(s, c.plan.environmentID, c.plan.generation)
    requires Follows(s[c.plan.id := c], c.plan)
    ensures StoreInv(s[c.plan.id := c], clock)
  {
    hide Valid, Follows, OneLive, Grounded, Contiguous, NextGeneration, NoLive;
    CreateOneLive(s, c);
    CreateContiguous(s, c);
    CreateGrounded(s, c);
    assert Exclusive(s[c.plan.id := c], clock);
  }

  lemma CreateRetained(s: Commands, p: Snapshot, c: Command)
    requires Retained(s, p) && NextGeneration(s, c.plan.environmentID, c.plan.generation)
    requires c.plan.id !in s && c.plan.id != "" && c.plan.generation > 0
    ensures Retained(s[c.plan.id := c], p)
  {
  }

  lemma CreateRepo(s: Commands, repos: Repos, fenced: Fenced, c: Command)
    requires RepoInv(s, repos) && FencedLandings(s, repos, fenced) && c.plan.id !in s
    requires c.writeBaseRevision == "" && c.committedRevision == ""
    ensures RepoInv(s[c.plan.id := c], repos) && FencedLandings(s[c.plan.id := c], repos, fenced)
    ensures Evolves(s, repos, s[c.plan.id := c], repos)
  {
    var s' := s[c.plan.id := c];
    forall b: string, i: int | b in repos && 0 <= i < |repos[b]| && repos[b][i].operation != ""
      ensures LandedAt(s', b, repos[b], i)
    {
      assert LandedAt(s, b, repos[b], i);
    }
  }

  lemma Created(s: Commands, c: Command)
    requires CreateOutcome(s, c) == Ok(true)
    ensures Valid(c) && c.plan.id !in s && c.plan.id != "" && c.plan.generation > 0
    ensures NoLive(s, c.plan.environmentID) && NextGeneration(s, c.plan.environmentID, c.plan.generation)
  {
  }

  lemma PlanCreateInv(s: State, p: Snapshot, id: string, target: Target, createdAt: Time, s': State)
    requires Inv(s) && PlanCreateStep(s, p, id, target, createdAt, s')
    ensures Inv(s')
  {
    hide Valid, Materialized, RepoInv, FencedLandings, OneLive, Contiguous, Grounded, Exclusive, Retained,
      CreateOutcome, ThreadsInv, NextGeneration, NoLive, Follows, Evolves, DistinctEpochs;
    var c := Materialized(s.store, p, id, target, createdAt).command;
    Created(s.store, c);
    MaterializedPlan(s.store, p, id, target, createdAt);
    CreateFollows(s.store, p, c);
    CreateStore(s.store, s.clock, c);
    CreateRepo(s.store, s.repos, s.fenced, c);
    CreateThreads(s, c, s');
    CreateSnapshots(s.store, s.snapshots, c);
    hide StoreInv, SnapshotsInv;
  }

  lemma CreateSnapshots(s: Commands, snapshots: set<Snapshot>, c: Command)
    requires SnapshotsInv(s, snapshots) && CreateOutcome(s, c) == Ok(true)
    ensures SnapshotsInv(s[c.plan.id := c], snapshots)
  {
    hide Retained, CreateOutcome;
    Created(s, c);
    forall q | q in snapshots
      ensures Retained(s[c.plan.id := c], q)
    {
      CreateRetained(s, q, c);
    }
  }

  lemma CreateThreads(s: State, c: Command, s': State)
    requires Inv(s) && c.plan.id !in s.store && s' == s.(store := s.store[c.plan.id := c])
    requires Evolves(s.store, s.repos, s'.store, s'.repos)
    ensures ThreadsInv(s'.store, s'.repos, s'.fenced, s'.threads)
  {
    hide Inv, SharedInv, OthersInv, Evolves, PhaseInv, Valid;
    forall t | t in s.threads
      ensures ThreadInv(s'.store, s'.repos, s'.fenced, s.threads[t])
    {
      ThreadAt(s, t);
      Keyed(s);
      ThreadStable(s.store, s.repos, s.fenced, s'.store, s'.repos, s'.fenced, s.threads[t]);
    }
  }

  // Every run.

  lemma ActsInv(s: State, l: Label, s': State)
    requires Inv(s) && Acts(s, l, s')
    ensures Inv(s')
  {
    hide Inv, PlanCreateStep, ForeignPushStep, ClaimStep, LoadStep, SeeHeadStep, InterruptStep, BindStep, ResumeStep,
      RouteStep;
    hide PushStep, RejectPushStep, AcknowledgeStep, ConfirmStep, CompleteStep, DecideStep, SettleStep, BeatStep;
    match l {
      case PlanSnapshot(p) => PlanSnapshotInv(s, p, s');
      case PlanCreate(p, id, target, createdAt) => PlanCreateInv(s, p, id, target, createdAt, s');
      case ForeignPush(b, c) => ForeignPushInv(s, b, c, s');
      case Claim(t, k, owner, configDigest, duration) => ClaimInv(s, t, k, owner, configDigest, duration, s');
      case Load(t) => LoadInv(s, t, s');
      case SeeHead(t) => SeeHeadInv(s, t, s');
      case Interrupt(t, e) => InterruptInv(s, t, e, s');
      case Bind(t, observedAt, replied) => BindInv(s, t, observedAt, replied, s');
      case Resume(t) => ResumeInv(s, t, s');
      case Route(t, search) => RouteInv(s, t, search, s');
      case Push(t, commitID, replied) => PushInv(s, t, commitID, replied, s');
      case RejectPush(t) => RejectPushInv(s, t, s');
      case Acknowledge(t, replied) => AcknowledgeInv(s, t, replied, s');
      case Confirm(t) => ConfirmInv(s, t, s');
      case Complete(t, replied) => CompleteInv(s, t, replied, s');
      case Decide(t) => DecideInv(s, t, s');
      case Settle(t) => SettleInv(s, t, s');
      case Beat(t, duration, replied) => BeatInv(s, t, duration, replied, s');
      case Crash(t) => GoneInv(s, t, s');
    }
  }

  /** The invariant holds in every state of every run. */
  lemma {:induction false} RunInv(states: seq<State>, events: seq<Event>, i: nat)
    requires IsRun(states, events) && i < |states|
    ensures Inv(states[i])
  {
    hide Inv, Acts;
    if i == 0 {
      InitInv(states[0]);
    } else {
      RunInv(states, events, i - 1);
      var e := events[i - 1];
      assert Next(states[i - 1], e.action, e.now, states[i]);
      ClockInv(states[i - 1], e.now);
      ActsInv(states[i - 1].(clock := e.now), e.action, states[i]);
    }
  }
}
