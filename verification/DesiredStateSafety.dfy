/** What every reachable state of the desired-state protocol satisfies. */
module DesiredStateSafety {
  import opened Identifiers
  import opened DesiredStateModel
  import opened DesiredStateStore
  import opened DesiredStateGit
  import opened DesiredStateProtocol

  // The store.

  ghost predicate Stored(s: Commands, clock: Time) {
    WellKeyed(s) && forall k | k in s :: Valid(s[k]) && s[k].updatedAt <= clock
  }

  predicate SameEnvironment(c: Command, d: Command) {
    c.plan.environmentID == d.plan.environmentID
  }

  /** Generations of an environment are distinct and only the highest may be live. */
  ghost predicate OneLive(s: Commands) {
    forall j, k | j in s && k in s && j != k && SameEnvironment(s[j], s[k]) ::
      s[j].plan.generation != s[k].plan.generation
        && (s[j].plan.generation < s[k].plan.generation ==> !Live(s[j].state))
  }

  ghost predicate HasGeneration(s: Commands, environmentID: string, g: int) {
    exists j :: j in s && s[j].plan.environmentID == environmentID && s[j].plan.generation == g
  }

  /** Generations of an environment are exactly 1..n. */
  ghost predicate Contiguous(s: Commands) {
    forall k, g | k in s && 1 <= g <= s[k].plan.generation :: HasGeneration(s, s[k].plan.environmentID, g)
  }

  /** At most one command per platform binding has an unexpired lease. */
  ghost predicate Exclusive(s: Commands, now: Time) {
    forall j, k | j in s && k in s && s[j].plan.platformBindingID == s[k].plan.platformBindingID
                  && LeaseHeld(s[j], now) && LeaseHeld(s[k], now) :: j == k
  }

  /** The verified command with the highest generation below `g`. */
  ghost predicate VerifiedBelow(s: Commands, environmentID: string, g: int, j: string) {
    && j in s && s[j].plan.environmentID == environmentID && s[j].state == Verified && s[j].plan.generation < g
    && forall i | i in s && s[i].plan.environmentID == environmentID && s[i].state == Verified
       && s[i].plan.generation < g ::
         s[i].plan.generation <= s[j].plan.generation
  }

  ghost predicate NoneVerifiedBelow(s: Commands, environmentID: string, g: int) {
    forall i | i in s && s[i].plan.environmentID == environmentID && s[i].plan.generation < g :: s[i].state != Verified
  }

  /** A plan is guarded by the content of an earlier plan for the same branch, and changes it. */
  predicate Replaces(p: Plan, q: Plan) {
    p.expectedETag == Strong(q.contentSHA256) && p.content != q.content && p.platformBindingID == q.platformBindingID
  }

  /** A plan's precondition names the verified command right below it, whose content it changes. */
  ghost predicate Follows(s: Commands, p: Plan) {
    if p.precondition == CreateIfAbsent then NoneVerifiedBelow(s, p.environmentID, p.generation)
    else exists j :: VerifiedBelow(s, p.environmentID, p.generation, j) && Replaces(p, s[j].plan)
  }

  ghost predicate Grounded(s: Commands) {
    forall k | k in s :: Follows(s, s[k].plan)
  }

  ghost predicate StoreInv(s: Commands, clock: Time) {
    Stored(s, clock) && OneLive(s) && Contiguous(s) && Exclusive(s, clock) && Grounded(s) && clock > ZERO_TIME
  }

  // The planner's snapshots.

  ghost function SnapshotGeneration(s: Commands, p: Snapshot): int {
    if p.latestID in s then s[p.latestID].plan.generation else 0
  }

  /** Everything up to the snapshot's generation is still as the snapshot saw it. */
  ghost predicate Retained(s: Commands, p: Snapshot) {
    && (p.latestID != "" ==> p.latestID in s && s[p.latestID].plan.environmentID == p.environmentID)
    && (p.latestID == "" ==> p.latestID !in s)
    && (p.previousID != "" ==>
          && p.previousID in s && s[p.previousID].plan.environmentID == p.environmentID
          && s[p.previousID].state == Verified
          && s[p.previousID].plan.generation <= SnapshotGeneration(s, p))
    && forall k | k in s && s[k].plan.environmentID == p.environmentID
       && s[k].plan.generation <= SnapshotGeneration(s, p) ::
         && !Live(s[k].state)
         && (s[k].state == Verified ==> p.previousID != "" && s[k].plan.generation <= s[p.previousID].plan.generation)
  }

  // The branches.

  ghost predicate Lines(repos: Repos) {
    forall b | b in repos :: repos[b] != [] && UniqueIds(repos[b])
  }

  ghost predicate OnBranch(repos: Repos, b: string, id: string) {
    b in repos && HasBefore(repos[b], |repos[b]|, id)
  }

  ghost predicate BasesKnown(s: Commands, repos: Repos) {
    forall k | k in s && s[k].writeBaseRevision != "" ::
      OnBranch(repos, s[k].plan.platformBindingID, s[k].writeBaseRevision)
  }

  /**
   Commit `i` is the landing of its command: right on the command's write base, from an image its precondition allows.
   */
  ghost predicate LandedAt(s: Commands, b: string, h: History, i: int)
    requires 0 <= i < |h|
  {
    && i > 0 && h[i].operation in s
    && var c := s[h[i].operation];
       && c.plan.platformBindingID == b && c.writeBaseRevision != "" && c.writeBaseRevision == h[i - 1].id
       && h[i].tree == Mutated(h[i - 1].tree, CommandMutation(c))
       && PreconditionHolds(h[i - 1].tree, CommandMutation(c))
  }

  ghost predicate Operations(s: Commands, repos: Repos) {
    forall b, i | b in repos && 0 <= i < |repos[b]| && repos[b][i].operation != "" :: LandedAt(s, b, repos[b], i)
  }

  ghost predicate CommitOf(h: History, k: string, revision: string) {
    exists i :: 0 <= i < |h| && h[i].id == revision && h[i].operation == k
  }

  ghost predicate OperationBefore(h: History, n: int, k: string) {
    exists i :: 0 <= i < n && i < |h| && h[i].operation == k
  }

  ghost predicate Receipts(s: Commands, repos: Repos) {
    forall k | k in s && s[k].committedRevision != "" ::
      && s[k].plan.platformBindingID in repos
      && CommitOf(repos[s[k].plan.platformBindingID], k, s[k].committedRevision)
  }

  ghost predicate Ordered(h: History, x: string, y: string) {
    forall i, j | 0 <= i < |h| && 0 <= j < |h| && h[i].id == x && h[j].id == y :: i <= j
  }

  predicate Precedes(p: Plan, q: Plan) {
    p.environmentID == q.environmentID && p.platformBindingID == q.platformBindingID && p.generation < q.generation
  }

  /** Later generations have later write bases. */
  ghost predicate BasesOrdered(s: Commands, repos: Repos) {
    forall j, k | j in s && k in s && Precedes(s[j].plan, s[k].plan) && s[j].writeBaseRevision != ""
      && s[k].writeBaseRevision != ""
                  && s[k].plan.platformBindingID in repos ::
      Ordered(repos[s[k].plan.platformBindingID], s[j].writeBaseRevision, s[k].writeBaseRevision)
  }

  ghost predicate RepoInv(s: Commands, repos: Repos) {
    Lines(repos) && BasesKnown(s, repos) && Operations(s, repos) && Receipts(s, repos) && BasesOrdered(s, repos)
  }

  // The workers. `fenced` is the record of landings under an active lease.

  type Fenced = map<string, int>

  /** A worker's copy of its command is an earlier value of the stored one. */
  ghost predicate Copy(s: Commands, lease: Lease, c: Command) {
    c.plan.id == lease.commandID && lease.commandID in s && Advances(c, s[lease.commandID])
  }

  /** The view contains the write base of every earlier generation. */
  ghost predicate Ahead(s: Commands, h: History, c: Command, view: int) {
    forall j | j in s && Precedes(s[j].plan, c.plan) && s[j].writeBaseRevision != "" ::
      HasBefore(h, view, s[j].writeBaseRevision)
  }

  /** The worker's epoch is still the command's current one. */
  predicate CurrentEpoch(s: Commands, lease: Lease) {
    lease.commandID in s && s[lease.commandID].leaseEpoch == lease.epoch
  }

  /** If the command landed under a lease while this worker's epoch is still current, the view shows it. */
  ghost predicate Caught(s: Commands, fenced: Fenced, h: History, lease: Lease, view: int) {
    lease.commandID in fenced && CurrentEpoch(s, lease) ==> OperationBefore(h, view, lease.commandID)
  }

  ghost predicate Looked(s: Commands, repos: Repos, fenced: Fenced, lease: Lease, c: Command, view: int) {
    && Copy(s, lease, c) && Sees(repos, c, view)
    && Ahead(s, BranchOf(repos, c), c, view) && Caught(s, fenced, BranchOf(repos, c), lease, view)
  }

  /** No landing under a lease belongs to a command whose current epoch is this worker's. */
  ghost predicate Unlanded(s: Commands, fenced: Fenced, lease: Lease) {
    lease.commandID in fenced ==> !CurrentEpoch(s, lease)
  }

  ghost predicate PhaseInv(s: Commands, repos: Repos, fenced: Fenced, lease: Lease, p: Phase) {
    match p
    case Granted => true
    case Loaded(c) => Copy(s, lease, c)
    case HeadSeen(c, view) => Looked(s, repos, fenced, lease, c, view)
    case Ready(c, view) =>
      && Looked(s, repos, fenced, lease, c, view)
      && c.writeBaseRevision != "" && HasBefore(BranchOf(repos, c), view, c.writeBaseRevision)
    case Pushing(c, view) =>
      && Looked(s, repos, fenced, lease, c, view)
      && c.writeBaseRevision != "" && BranchOf(repos, c)[view - 1].id == c.writeBaseRevision
      && PreconditionHolds(BranchOf(repos, c)[view - 1].tree, CommandMutation(c))
    case Landed(c, revision, _) =>
      && Copy(s, lease, c) && c.writeBaseRevision != "" && Branch(repos, c)
      && CommitOf(BranchOf(repos, c), lease.commandID, revision)
    case Acknowledged(c, _) => Copy(s, lease, c)
    case Confirmed(c) => Copy(s, lease, c)
    case Erred(e) => e == WriteNotFound ==> Unlanded(s, fenced, lease)
    case Deciding(c, e) =>
      && Copy(s, lease, c)
      && (CurrentEpoch(s, lease) ==> s[lease.commandID].writeBaseRevision == c.writeBaseRevision)
      && (e == WriteNotFound ==> Unlanded(s, fenced, lease))
  }

  ghost predicate ThreadInv(s: Commands, repos: Repos, fenced: Fenced, th: Thread) {
    && th.lease.commandID in s && th.lease.epoch <= s[th.lease.commandID].leaseEpoch
    && PhaseInv(s, repos, fenced, th.lease, th.phase)
  }

  ghost predicate ThreadsInv(s: Commands, repos: Repos, fenced: Fenced, threads: map<nat, Thread>) {
    forall t | t in threads :: ThreadInv(s, repos, fenced, threads[t])
  }

  /** No two passes hold the same epoch of a command. */
  ghost predicate DistinctEpochs(threads: map<nat, Thread>) {
    forall t, u | t in threads && u in threads && t != u && threads[t].lease.commandID == threads[u].lease.commandID ::
      threads[t].lease.epoch != threads[u].lease.epoch
  }

  predicate Abandoned(state: CommandState) {
    state == Failed || state == Superseded || state == BlockedPrerequisite
  }

  /** A command that landed under an active lease is on its branch and was not abandoned. */
  ghost predicate FencedLandings(s: Commands, repos: Repos, fenced: Fenced) {
    forall k | k in fenced ::
      && k in s && !Abandoned(s[k].state) && fenced[k] <= s[k].leaseEpoch
      && s[k].plan.platformBindingID in repos
      && OperationBefore(repos[s[k].plan.platformBindingID], |repos[s[k].plan.platformBindingID]|, k)
  }

  ghost predicate SnapshotsInv(s: Commands, snapshots: set<Snapshot>) {
    forall p | p in snapshots :: Retained(s, p)
  }

  ghost predicate Inv(s: State) {
    && StoreInv(s.store, s.clock) && RepoInv(s.store, s.repos) && SnapshotsInv(s.store, s.snapshots)
    && ThreadsInv(s.store, s.repos, s.fenced, s.threads) && DistinctEpochs(s.threads)
    && FencedLandings(s.store, s.repos, s.fenced)
  }

  lemma InitInv(s: State)
    requires Init(s)
    ensures Inv(s)
  {
  }

  lemma ClockInv(s: State, now: Time)
    requires Inv(s) && now >= s.clock
    ensures Inv(s.(clock := now))
  {
    assert Exclusive(s.store, now);
  }

  // Updating one stored command.

  lemma OneLiveUpdate(s: Commands, k: string, c: Command)
    requires OneLive(s) && k in s && Advances(s[k], c)
    ensures OneLive(s[k := c])
  {
  }

  lemma ContiguousUpdate(s: Commands, k: string, c: Command)
    requires Contiguous(s) && k in s && c.plan == s[k].plan
    ensures Contiguous(s[k := c])
  {
    var s' := s[k := c];
    forall i, g | i in s' && 1 <= g <= s'[i].plan.generation
      ensures HasGeneration(s', s'[i].plan.environmentID, g)
    {
      assert HasGeneration(s, s[i].plan.environmentID, g);
      var j :| j in s && s[j].plan.environmentID == s[i].plan.environmentID && s[j].plan.generation == g;
      assert j in s' && s'[j].plan == s[j].plan;
    }
  }

  /** Whether a plan follows its predecessor depends only on the commands below it. */
  lemma FollowsUnchanged(s: Commands, s': Commands, p: Plan)
    requires Follows(s, p) && s.Keys <= s'.Keys
    requires forall j | j in s && s[j].plan.environmentID == p.environmentID && s[j].plan.generation < p.generation ::
             s'[j] == s[j]
    requires forall j | j in s' && s'[j].plan.environmentID == p.environmentID
             && s'[j].plan.generation < p.generation ::
               j in s && s[j].plan.environmentID == p.environmentID && s[j].plan.generation < p.generation
    ensures Follows(s', p)
  {
    if p.precondition != CreateIfAbsent {
      var j :| VerifiedBelow(s, p.environmentID, p.generation, j) && Replaces(p, s[j].plan);
      assert VerifiedBelow(s', p.environmentID, p.generation, j);
    }
  }

  lemma GroundedUpdate(s: Commands, k: string, c: Command)
    requires Grounded(s) && OneLive(s) && k in s && Advances(s[k], c)
    ensures Grounded(s[k := c])
  {
    var s' := s[k := c];
    forall i | i in s'
      ensures Follows(s', s'[i].plan)
    {
      var p := s[i].plan;
      assert Follows(s, p);
      // Commands below `p` in its environment are terminal, so the update did not touch them.
      assert forall j | j in s && s[j].plan.environmentID == p.environmentID && s[j].plan.generation < p.generation ::
        s'[j] == s[j];
      FollowsUnchanged(s, s', p);
    }
  }

  lemma RetainedUpdate(s: Commands, p: Snapshot, k: string, c: Command)
    requires Retained(s, p) && k in s && Advances(s[k], c)
    ensures Retained(s[k := c], p)
  {
  }

  /** A command keeps or newly takes the only unexpired lease of its binding. */
  ghost predicate KeepsExclusive(s: Commands, k: string, c: Command, now: Time)
    requires k in s
  {
    LeaseHeld(c, now) ==> LeaseHeld(s[k], now) || !BindingHeld(s, s[k].plan.platformBindingID, k, now)
  }

  lemma ExclusiveUpdate(s: Commands, now: Time, k: string, c: Command)
    requires Exclusive(s, now) && k in s && c.plan == s[k].plan && KeepsExclusive(s, k, c, now)
    ensures Exclusive(s[k := c], now)
  {
  }

  lemma StoreUpdate(s: Commands, clock: Time, k: string, c: Command)
    requires StoreInv(s, clock) && k in s && Advances(s[k], c) && Valid(c) && c.updatedAt <= clock
    requires KeepsExclusive(s, k, c, clock)
    ensures StoreInv(s[k := c], clock)
  {
    hide Valid, OneLive, Contiguous, Grounded, Exclusive, KeepsExclusive;
    OneLiveUpdate(s, k, c);
    ContiguousUpdate(s, k, c);
    GroundedUpdate(s, k, c);
    ExclusiveUpdate(s, clock, k, c);
    assert Stored(s[k := c], clock);
  }

  /** A newly bound write base is on the branch, at or after the write bases of earlier generations. */
  ghost predicate BindsWell(s: Commands, repos: Repos, p: Plan, base: string) {
    && OnBranch(repos, p.platformBindingID, base)
    && forall j | j in s && s[j].writeBaseRevision != "" ::
         && (Precedes(s[j].plan, p) ==> Ordered(repos[p.platformBindingID], s[j].writeBaseRevision, base))
         && !Precedes(p, s[j].plan)
  }

  lemma RepoUpdate(s: Commands, repos: Repos, k: string, c: Command)
    requires RepoInv(s, repos) && WellKeyed(s) && k in s && Advances(s[k], c)
    requires c.writeBaseRevision != s[k].writeBaseRevision ==> BindsWell(s, repos, c.plan, c.writeBaseRevision)
    requires c.committedRevision != s[k].committedRevision ==>
               c.plan.platformBindingID in repos && CommitOf(repos[c.plan.platformBindingID], k, c.committedRevision)
    ensures RepoInv(s[k := c], repos)
  {
    var s' := s[k := c];
    forall b, i | b in repos && 0 <= i < |repos[b]| && repos[b][i].operation != ""
      ensures LandedAt(s', b, repos[b], i)
    {
      assert LandedAt(s, b, repos[b], i);
    }
  }

  // What other workers know stays true.

  /** Commands advance, branches grow, and only live commands take a write base. */
  ghost predicate Evolves(s: Commands, repos: Repos, s': Commands, repos': Repos) {
    && (forall k | k in s :: k in s' && Advances(s[k], s'[k]))
    && (forall b | b in repos :: b in repos' && repos[b] <= repos'[b])
    && (forall k | k in s' && s'[k].writeBaseRevision != "" ::
          k in s && (s[k].writeBaseRevision == s'[k].writeBaseRevision || Live(s[k].state)))
  }

  lemma AheadStable(s: Commands, repos: Repos, s': Commands, repos': Repos, c: Command, k: string, view: int)
    requires OneLive(s) && WellKeyed(s) && k in s && s[k].plan == c.plan && Branch(repos, c)
    requires Ahead(s, BranchOf(repos, c), c, view) && Evolves(s, repos, s', repos')
    ensures Ahead(s', repos'[c.plan.platformBindingID], c, view)
  {
    var h, h' := BranchOf(repos, c), repos'[c.plan.platformBindingID];
    forall j | j in s' && Precedes(s'[j].plan, c.plan) && s'[j].writeBaseRevision != ""
      ensures HasBefore(h', view, s'[j].writeBaseRevision)
    {
      assert j != k && SameEnvironment(s[j], s[k]) && !Live(s[j].state);
      assert HasBefore(h, view, s[j].writeBaseRevision);
      HasBeforeGrows(h, h', view, s[j].writeBaseRevision);
    }
  }

  lemma HasBeforeGrows(h: History, h': History, n: int, id: string)
    requires h <= h' && HasBefore(h, n, id)
    ensures HasBefore(h', n, id)
  {
    var i :| 0 <= i < n && i < |h| && h[i].id == id;
    assert h'[i].id == id;
  }

  lemma OperationGrows(h: History, h': History, n: int, k: string)
    requires h <= h' && OperationBefore(h, n, k)
    ensures OperationBefore(h', n, k)
  {
    var i :| 0 <= i < n && i < |h| && h[i].operation == k;
    assert h'[i].operation == k;
  }

  lemma CommitGrows(h: History, h': History, k: string, revision: string)
    requires h <= h' && CommitOf(h, k, revision)
    ensures CommitOf(h', k, revision)
  {
    var i :| 0 <= i < |h| && h[i].id == revision && h[i].operation == k;
    assert h'[i].id == revision;
  }

  /** While a worker's epoch is current nobody else binds its command's write base or lands it under a lease. */
  ghost predicate Undisturbed(s: Commands, fenced: Fenced, s': Commands, fenced': Fenced, lease: Lease) {
    CurrentEpoch(s', lease) ==>
      && CurrentEpoch(s, lease) && s'[lease.commandID].writeBaseRevision == s[lease.commandID].writeBaseRevision
      && (lease.commandID in fenced' ==> lease.commandID in fenced)
  }

  lemma AdvancesTransitive(c: Command, d: Command, e: Command)
    requires Advances(c, d) && Advances(d, e)
    ensures Advances(c, e)
  {
  }

  lemma LookedStable(s: Commands, repos: Repos, fenced: Fenced, s': Commands, repos': Repos, fenced': Fenced,
                     lease: Lease, c: Command, view: int)
    requires Looked(s, repos, fenced, lease, c, view) && OneLive(s) && WellKeyed(s) && Evolves(s, repos, s', repos')
    requires Undisturbed(s, fenced, s', fenced', lease)
    ensures Looked(s', repos', fenced', lease, c, view)
  {
    var h, h' := BranchOf(repos, c), repos'[c.plan.platformBindingID];
    AheadStable(s, repos, s', repos', c, lease.commandID, view);
    if lease.commandID in fenced' && CurrentEpoch(s', lease) {
      OperationGrows(h, h', view, lease.commandID);
    }
  }

  lemma ThreadStable(s: Commands, repos: Repos, fenced: Fenced, s': Commands, repos': Repos, fenced': Fenced,
      th: Thread)
    requires ThreadInv(s, repos, fenced, th) && OneLive(s) && WellKeyed(s) && Evolves(s, repos, s', repos')
    requires Undisturbed(s, fenced, s', fenced', th.lease)
    ensures ThreadInv(s', repos', fenced', th)
  {
    var k := th.lease.commandID;
    match th.phase {
      case Granted =>
      case Loaded(c) =>
        AdvancesTransitive(c, s[k], s'[k]);
      case HeadSeen(c, view) =>
        LookedStable(s, repos, fenced, s', repos', fenced', th.lease, c, view);
      case Ready(c, view) =>
        LookedStable(s, repos, fenced, s', repos', fenced', th.lease, c, view);
        HasBeforeGrows(BranchOf(repos, c), BranchOf(repos', c), view, c.writeBaseRevision);
      case Pushing(c, view) =>
        LookedStable(s, repos, fenced, s', repos', fenced', th.lease, c, view);
        assert BranchOf(repos', c)[view - 1] == BranchOf(repos, c)[view - 1];
      case Landed(c, revision, _) =>
        AdvancesTransitive(c, s[k], s'[k]);
        CommitGrows(BranchOf(repos, c), repos'[c.plan.platformBindingID], k, revision);
      case Acknowledged(c, _) =>
        AdvancesTransitive(c, s[k], s'[k]);
      case Confirmed(c) =>
        AdvancesTransitive(c, s[k], s'[k]);
      case Erred(_) =>
      case Deciding(c, _) =>
        AdvancesTransitive(c, s[k], s'[k]);
    }
  }

  lemma ThreadsStable(s: State, s': State, t: nat)
    requires Inv(s) && Evolves(s.store, s.repos, s'.store, s'.repos)
    requires forall u | u in s.threads && u != t ::
             Undisturbed(s.store, s.fenced, s'.store, s'.fenced, s.threads[u].lease)
    ensures forall u | u in s.threads && u != t :: ThreadInv(s'.store, s'.repos, s'.fenced, s.threads[u])
  {
    forall u | u in s.threads && u != t
      ensures ThreadInv(s'.store, s'.repos, s'.fenced, s.threads[u])
    {
      ThreadStable(s.store, s.repos, s.fenced, s'.store, s'.repos, s'.fenced, s.threads[u]);
    }
  }

  // Steps that present a lease to the store.

  /** What the protocol owes the store before each leased transition. */
  ghost predicate Justified(s: State, lease: Lease, op: Op) {
    && lease.commandID in s.store
    && var c := s.store[lease.commandID];
       match op
       case BindWriteBase(base, _) => c.writeBaseRevision == "" ==> BindsWell(s.store, s.repos, c.plan, base)
       case MarkGitCommitted(revision) =>
         && c.writeBaseRevision != "" && c.plan.platformBindingID in s.repos
         && CommitOf(s.repos[c.plan.platformBindingID], lease.commandID, revision)
       case Fail(_) => lease.commandID !in s.fenced
       case Supersede => c.writeBaseRevision == "" ==> lease.commandID !in s.fenced
       case _ => true
  }

  lemma PerformKeepsExclusive(s: Commands, lease: Lease, op: Op, now: Time)
    requires Perform(s, lease, op, now).Ok?
    ensures lease.commandID in s && KeepsExclusive(s, lease.commandID, Perform(s, lease, op, now).value, now)
  {
  }

  lemma PerformStore(s: State, lease: Lease, op: Op)
    requires Inv(s) && Perform(s.store, lease, op, s.clock).Ok? && Justified(s, lease, op)
    ensures var c' := Perform(s.store, lease, op, s.clock).value;
            && Advances(s.store[lease.commandID], c') && Valid(c') && c'.leaseEpoch == lease.epoch
            && StoreInv(s.store[lease.commandID := c'], s.clock)
            && SnapshotsInv(s.store[lease.commandID := c'], s.snapshots)
  {
    hide Valid, RepoInv, ThreadsInv, FencedLandings, OneLive, Contiguous, Exclusive, Grounded, Retained, KeepsExclusive,
      Advances;
    hide BindsWell, CommitOf, Perform;
    var k := lease.commandID;
    var c' := Perform(s.store, lease, op, s.clock).value;
    PerformAdvances(s.store, lease, op, s.clock);
    PerformKeepsValid(s.store, lease, op, s.clock);
    PerformKeepsExclusive(s.store, lease, op, s.clock);
    StoreUpdate(s.store, s.clock, k, c');
    forall p | p in s.snapshots
      ensures Retained(s.store[k := c'], p)
    {
      RetainedUpdate(s.store, p, k, c');
    }
  }
}
