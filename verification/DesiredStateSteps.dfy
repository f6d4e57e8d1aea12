/** Every step of the protocol preserves the invariant. */
module DesiredStateSteps {
  import opened Identifiers
  import opened DesiredStateModel
  import opened DesiredStateStore
  import opened DesiredStateGit
  import opened DesiredStateProtocol
  import opened DesiredStateSafety

  // Putting a state's invariant together from its parts.

  ghost predicate SharedInv(s: State) {
    && StoreInv(s.store, s.clock) && RepoInv(s.store, s.repos) && SnapshotsInv(s.store, s.snapshots)
    && FencedLandings(s.store, s.repos, s.fenced)
  }

  ghost predicate OthersInv(s: State, threads: map<nat, Thread>, t: nat) {
    forall u | u in threads && u != t :: ThreadInv(s.store, s.repos, s.fenced, threads[u])
  }

  /** Worker `t` moved on, with the same epoch of the same command. */
  lemma Moved(s: State, t: nat, th: Thread, s': State)
    requires DistinctEpochs(s.threads) && t in s.threads && s'.threads == s.threads[t := th]
    requires th.lease.commandID == s.threads[t].lease.commandID && th.lease.epoch == s.threads[t].lease.epoch
    requires SharedInv(s') && OthersInv(s', s.threads, t) && ThreadInv(s'.store, s'.repos, s'.fenced, th)
    ensures Inv(s')
  {
    hide StoreInv, RepoInv, SnapshotsInv, FencedLandings, ThreadInv;
  }

  /** Worker `t` is gone. */
  lemma Removed(s: State, t: nat, s': State)
    requires DistinctEpochs(s.threads) && s'.threads == s.threads - {t} && SharedInv(s') && OthersInv(s', s.threads, t)
    ensures Inv(s')
  {
    hide StoreInv, RepoInv, SnapshotsInv, FencedLandings, ThreadInv;
  }

  lemma ValidHasID(c: Command)
    ensures Valid(c) ==> c.plan.id != ""
  {
  }

  lemma ThreadAt(s: State, t: nat)
    requires Inv(s) && t in s.threads
    ensures ThreadInv(s.store, s.repos, s.fenced, s.threads[t])
    ensures Valid(s.store[s.threads[t].lease.commandID])
            && s.store[s.threads[t].lease.commandID].plan.id == s.threads[t].lease.commandID
    ensures s.threads[t].lease.commandID != ""
    ensures SharedInv(s) && OthersInv(s, s.threads, t) && DistinctEpochs(s.threads)
  {
    hide Valid, PhaseInv, RepoInv, OneLive, Contiguous, Exclusive, Grounded, SnapshotsInv, FencedLandings;
    assert ThreadInv(s.store, s.repos, s.fenced, s.threads[t]);
    ValidHasID(s.store[s.threads[t].lease.commandID]);
  }

  /** A step inside worker `t` that touches nothing shared. */
  lemma LocalInv(s: State, t: nat, th: Thread, s': State)
    requires Inv(s) && t in s.threads && s' == s.(threads := s.threads[t := th])
    requires th.lease.commandID == s.threads[t].lease.commandID && th.lease.epoch == s.threads[t].lease.epoch
    requires PhaseInv(s.store, s.repos, s.fenced, th.lease, th.phase)
    ensures Inv(s')
  {
    hide SharedInv, PhaseInv, Valid, Inv;
    ThreadAt(s, t);
    Moved(s, t, th, s') by {
      assert OthersInv(s', s.threads, t);
      assert SharedInv(s') by { SharedSame(s, s'); }
    }
  }

  lemma SharedSame(s: State, s': State)
    requires SharedInv(s) && s'.store == s.store && s'.repos == s.repos && s'.fenced == s.fenced && s'.clock == s.clock
             && s'.snapshots == s.snapshots
    ensures SharedInv(s')
  {
    hide StoreInv, RepoInv, SnapshotsInv, FencedLandings;
  }

  lemma GoneInv(s: State, t: nat, s': State)
    requires Inv(s) && s' == Without(s, t)
    ensures Inv(s')
  {
    hide StoreInv, RepoInv, SnapshotsInv, FencedLandings, ThreadInv;
    assert OthersInv(s', s.threads, t);
    Removed(s, t, s');
  }

  // Leased store transitions.

  /** What a leased transition may change, and for which operation. */
  ghost predicate Effect(c: Command, op: Op, c': Command) {
    && Advances(c, c')
    && (c'.writeBaseRevision != c.writeBaseRevision ==>
       op.BindWriteBase? && c'.writeBaseRevision == op.base && Live(c.state)
                                                        && c.writeBaseRevision == "")
    && (c'.committedRevision != c.committedRevision ==> op.MarkGitCommitted? && c'.committedRevision == op.revision)
    && (Abandoned(c'.state) && !Abandoned(c.state) ==> op.Fail? || (op.Supersede? && c.writeBaseRevision == ""))
  }

  lemma PerformEffect(s: Commands, lease: Lease, op: Op, now: Time)
    requires Perform(s, lease, op, now).Ok? && Valid(s[lease.commandID])
    ensures lease.commandID in s && Effect(s[lease.commandID], op, Perform(s, lease, op, now).value)
    ensures s[lease.commandID].leaseEpoch == lease.epoch == Perform(s, lease, op, now).value.leaseEpoch
  {
    PerformAdvances(s, lease, op, now);
  }

  lemma PerformRepo(s: State, lease: Lease, op: Op, c': Command)
    requires SharedInv(s) && lease.commandID in s.store && Effect(s.store[lease.commandID], op, c')
             && Justified(s, lease, op)
    ensures RepoInv(s.store[lease.commandID := c'], s.repos)
    ensures FencedLandings(s.store[lease.commandID := c'], s.repos, s.fenced)
    ensures Evolves(s.store, s.repos, s.store[lease.commandID := c'], s.repos)
  {
    hide Valid, RepoInv, SnapshotsInv, OneLive, Contiguous, Exclusive, Grounded, BindsWell, CommitOf;
    RepoUpdate(s.store, s.repos, lease.commandID, c');
  }

  /** A transition under a worker's lease does not disturb the other workers. */
  lemma PerformInv(s: State, t: nat, op: Op, s': State)
    requires Inv(s) && t in s.threads
    requires var lease := s.threads[t].lease;
             && Perform(s.store, lease, op, s.clock).Ok? && Justified(s, lease, op)
             && s'.store == s.store[lease.commandID := Perform(s.store, lease, op, s.clock).value]
    requires s'.repos == s.repos && s'.fenced == s.fenced && s'.clock == s.clock && s'.snapshots == s.snapshots
    ensures SharedInv(s') && Evolves(s.store, s.repos, s'.store, s'.repos) && OthersInv(s', s.threads, t)
    ensures var k := s.threads[t].lease.commandID;
            && k in s.store && Effect(s.store[k], op, s'.store[k])
            && s.store[k].leaseEpoch == s.threads[t].lease.epoch == s'.store[k].leaseEpoch
  {
    hide Valid, RepoInv, SnapshotsInv, StoreInv, FencedLandings, Justified, Evolves, ThreadInv, Perform, Inv;
    var lease := s.threads[t].lease;
    ThreadAt(s, t);
    PerformEffect(s.store, lease, op, s.clock);
    PerformStore(s, lease, op);
    PerformRepo(s, lease, op, s'.store[lease.commandID]);
    ThreadsStable(s, s', t);
  }

  lemma OrderedFromAhead(h: History, view: int, x: string)
    requires UniqueIds(h) && 0 < view <= |h| && HasBefore(h, view, x)
    ensures Ordered(h, x, h[view - 1].id)
  {
  }

  lemma BindJustified(s: State, lease: Lease, c: Command, view: int, op: Op)
    requires SharedInv(s) && Looked(s.store, s.repos, s.fenced, lease, c, view) && op.BindWriteBase?
    requires op.base == BranchOf(s.repos, c)[view - 1].id
    requires s.store[lease.commandID].writeBaseRevision == "" ==> Live(s.store[lease.commandID].state)
    ensures Justified(s, lease, op)
  {
    hide Valid, SnapshotsInv, FencedLandings, Grounded, Exclusive, Contiguous;
    var k, h := lease.commandID, BranchOf(s.repos, c);
    if s.store[k].writeBaseRevision == "" {
      assert h[view - 1].id == op.base;
      assert HasBefore(h, |h|, op.base);
      forall j | j in s.store && s.store[j].writeBaseRevision != ""
        ensures Precedes(s.store[j].plan, c.plan) ==> Ordered(h, s.store[j].writeBaseRevision, op.base)
        ensures !Precedes(c.plan, s.store[j].plan)
      {
        if Precedes(s.store[j].plan, c.plan) {
          assert HasBefore(h, view, s.store[j].writeBaseRevision);
          OrderedFromAhead(h, view, s.store[j].writeBaseRevision);
        }
        assert j != k ==>
          !(SameEnvironment(s.store[k], s.store[j]) && s.store[k].plan.generation < s.store[j].plan.generation);
      }
    }
  }

  /** Binding succeeds only on a claimed command, or on one already bound to the same base. */
  lemma BindResult(s: Commands, lease: Lease, op: Op, now: Time)
    requires op.BindWriteBase? && Perform(s, lease, op, now).Ok?
    ensures s[lease.commandID].writeBaseRevision == "" ==> Live(s[lease.commandID].state)
    ensures Perform(s, lease, op, now).value.writeBaseRevision == op.base != ""
  {
  }

  lemma BindPhase(s: State, s': State, lease: Lease, c: Command, view: int)
    requires SharedInv(s) && Looked(s.store, s.repos, s.fenced, lease, c, view)
    requires Evolves(s.store, s.repos, s'.store, s'.repos) && s'.repos == s.repos && s'.fenced == s.fenced
    requires lease.commandID in s'.store && s'.store[lease.commandID].plan == c.plan
    requires s'.store[lease.commandID].leaseEpoch == s.store[lease.commandID].leaseEpoch
    requires s'.store[lease.commandID].writeBaseRevision == BranchOf(s.repos, c)[view - 1].id != ""
    ensures PhaseInv(s'.store, s'.repos, s'.fenced, lease, Ready(s'.store[lease.commandID], view))
  {
    hide Valid, OneLive, Lines, Operations, Grounded, BasesKnown, SharedInv, Evolves, OperationBefore;
    var d, h := s'.store[lease.commandID], BranchOf(s.repos, c);
    assert Ahead(s'.store, h, c, view) by {
      Keyed(s);
      AheadStable(s.store, s.repos, s'.store, s'.repos, c, lease.commandID, view);
    }
    assert Ahead(s'.store, h, d, view);
    assert Caught(s'.store, s'.fenced, h, lease, view);
    assert h[view - 1].id == d.writeBaseRevision;
    assert HasBefore(h, view, d.writeBaseRevision);
  }

  lemma SamePlan(s: State, lease: Lease, c: Command, view: int, op: Op, d: Command)
    requires Looked(s.store, s.repos, s.fenced, lease, c, view) && Effect(s.store[lease.commandID], op, d)
    ensures d.plan == c.plan
  {
  }

  lemma BindInv(s: State, t: nat, observedAt: Time, replied: bool, s': State)
    requires Inv(s) && BindStep(s, t, observedAt, replied, s')
    ensures Inv(s')
  {
    hide Valid, Inv, Justified, Perform, SharedInv, OthersInv, PreconditionHolds, Looked, Effect, Evolves, HasBefore;
    ThreadAt(s, t);
    var lease := s.threads[t].lease;
    var HeadSeen(c, view) := s.threads[t].phase;
    var op := BindWriteBase(HeadOf(Prepared(s.repos, c, view)).id, observedAt);
    BindResult(s.store, lease, op, s.clock);
    BindJustified(s, lease, c, view, op);
    PerformInv(s, t, op, s');
    SamePlan(s, lease, c, view, op, s'.store[lease.commandID]);
    BindPhase(s, s', lease, c, view);
    MovedPhase(s, t, s'.threads[t].phase, s');
  }

  /** Worker `t` moved to another phase under the same lease. */
  lemma MovedPhase(s: State, t: nat, p: Phase, s': State)
    requires Inv(s) && t in s.threads && s'.threads == s.threads[t := s.threads[t].(phase := p)]
    requires SharedInv(s') && OthersInv(s', s.threads, t) && Evolves(s.store, s.repos, s'.store, s'.repos)
    requires PhaseInv(s'.store, s'.repos, s'.fenced, s.threads[t].lease, p)
    ensures Inv(s')
  {
    hide Valid, Inv, SharedInv, OthersInv, PhaseInv;
    ThreadAt(s, t);
    Moved(s, t, s'.threads[t], s');
  }

  lemma Keyed(s: State)
    requires SharedInv(s)
    ensures OneLive(s.store) && WellKeyed(s.store) && Lines(s.repos) && Operations(s.store, s.repos)
            && Grounded(s.store)
            && BasesKnown(s.store, s.repos)
    ensures forall k | k in s.store :: Valid(s.store[k])
  {
    hide Valid, OneLive, Lines, Operations, Grounded, BasesKnown;
  }

  lemma AcknowledgeInv(s: State, t: nat, replied: bool, s': State)
    requires Inv(s) && AcknowledgeStep(s, t, replied, s')
    ensures Inv(s')
  {
    hide Valid, SharedInv, OthersInv, Perform, Inv, CommitOf;
    ThreadAt(s, t);
    PerformInv(s, t, MarkGitCommitted(s.threads[t].phase.revision), s');
    Moved(s, t, s'.threads[t], s');
  }

  lemma CompleteInv(s: State, t: nat, replied: bool, s': State)
    requires Inv(s) && CompleteStep(s, t, replied, s')
    ensures Inv(s')
  {
    hide Valid, SharedInv, OthersInv, Perform, Inv;
    ThreadAt(s, t);
    PerformInv(s, t, CompleteVerified(s.threads[t].phase.command.committedRevision), s');
    if replied {
      Removed(s, t, s');
    } else {
      Moved(s, t, s'.threads[t], s');
    }
  }

  /** A worker's knowledge does not depend on its lease's deadline. */
  lemma PhaseInvLease(s: Commands, repos: Repos, fenced: Fenced, lease: Lease, lease': Lease, p: Phase)
    requires lease.commandID == lease'.commandID && lease.epoch == lease'.epoch && PhaseInv(s, repos, fenced, lease, p)
    ensures PhaseInv(s, repos, fenced, lease', p)
  {
  }

  lemma HeartbeatResult(s: Commands, lease: Lease, duration: int, now: Time)
    requires Perform(s, lease, Heartbeat(duration), now).Ok?
    ensures Perform(s, lease, Heartbeat(duration), now).value.lease == Some(lease.(until := now + duration))
    ensures Perform(s, lease, Heartbeat(duration), now).value.writeBaseRevision == s[lease.commandID].writeBaseRevision
  {
  }

  lemma BeatInv(s: State, t: nat, duration: int, replied: bool, s': State)
    requires Inv(s) && BeatStep(s, t, duration, replied, s')
    ensures Inv(s')
  {
    hide Valid, SharedInv, OthersInv, Perform, Inv, PhaseInv, Evolves;
    ThreadAt(s, t);
    var th := s.threads[t];
    PerformInv(s, t, Heartbeat(duration), s');
    if replied {
      HeartbeatResult(s.store, th.lease, duration, s.clock);
      ThreadStable(s.store, s.repos, s.fenced, s'.store, s'.repos, s'.fenced, th) by { Keyed(s); }
      PhaseInvLease(s'.store, s'.repos, s'.fenced, th.lease, s'.threads[t].lease, th.phase);
      Moved(s, t, s'.threads[t], s');
    } else {
      Removed(s, t, s');
    }
  }

  /** A landing under a lease was of a command with a bound write base. */
  lemma FencedBound(s: State, k: string) returns (i: int)
    requires SharedInv(s) && k in s.fenced && k != ""
    ensures k in s.store && s.store[k].writeBaseRevision != "" && s.store[k].plan.platformBindingID in s.repos
    ensures var b := s.store[k].plan.platformBindingID;
            0 <= i < |s.repos[b]| && s.repos[b][i].operation == k && LandedAt(s.store, b, s.repos[b], i)
  {
    hide Valid, StoreInv, SnapshotsInv, BasesOrdered, Receipts, PreconditionHolds;
    var b := s.store[k].plan.platformBindingID;
    i :| 0 <= i < |s.repos[b]| && s.repos[b][i].operation == k;
  }

  lemma PresentedLease(s: Commands, lease: Lease, op: Op, now: Time)
    requires Perform(s, lease, op, now).Ok?
    ensures lease.commandID in s && s[lease.commandID].lease == Some(lease) && lease.commandID != ""
  {
  }

  lemma SettleJustified(s: State, t: nat, op: Op)
    requires Inv(s) && t in s.threads && s.threads[t].phase.Deciding?
    requires op == Disposition(s.threads[t].phase.current, s.threads[t].phase.error, s.clock)
    requires Perform(s.store, s.threads[t].lease, op, s.clock).Ok?
    ensures Justified(s, s.threads[t].lease, op)
  {
    hide SharedInv, OthersInv, Inv, Perform, Valid;
    ThreadAt(s, t);
    var lease := s.threads[t].lease;
    PresentedLease(s.store, lease, op, s.clock);
    PerformEffect(s.store, lease, op, s.clock);
    if lease.commandID in s.fenced {
      var _ := FencedBound(s, lease.commandID);
    }
  }

  lemma SettleInv(s: State, t: nat, s': State)
    requires Inv(s) && SettleStep(s, t, s')
    ensures Inv(s')
  {
    hide SharedInv, OthersInv, Inv, Perform, Valid, Justified, ThreadInv, Evolves;
    ThreadAt(s, t);
    var op := Disposition(s.threads[t].phase.current, s.threads[t].phase.error, s.clock);
    if Perform(s.store, s.threads[t].lease, op, s.clock).Ok? {
      SettleJustified(s, t, op);
      PerformInv(s, t, op, s');
      Removed(s, t, s');
    } else {
      GoneInv(s, t, s');
    }
  }

  lemma ClaimOne(s: Commands, clock: Time, k: string, owner: string, configDigest: string, duration: int)
    requires StoreInv(s, clock) && FirstEligible(s, k, clock)
             && ClaimArguments(owner, CONTRACT, configDigest, clock, duration)
    ensures k in s
    ensures var c' := ClaimedCommand(s[k], owner, CONTRACT, configDigest, clock, duration);
            && Valid(c') && Advances(s[k], c') && c'.updatedAt <= clock && KeepsExclusive(s, k, c', clock)
            && Live(c'.state)
            && c'.lease.Some? && c'.leaseEpoch == s[k].leaseEpoch + 1 == c'.lease.value.epoch
            && c'.lease.value.commandID == s[k].plan.id == k
            && c'.writeBaseRevision == s[k].writeBaseRevision && c'.committedRevision == s[k].committedRevision
  {
    assert Valid(s[k]) && s[k].updatedAt <= clock;
    ClaimKeepsValid(s[k], owner, CONTRACT, configDigest, clock, duration);
  }

  lemma ClaimShared(s: State, k: string, c': Command, s': State)
    requires SharedInv(s) && k in s.store && Valid(c') && Advances(s.store[k], c') && c'.updatedAt <= s.clock
             && Live(c'.state)
    requires KeepsExclusive(s.store, k, c', s.clock)
    requires c'.writeBaseRevision == s.store[k].writeBaseRevision
             && c'.committedRevision == s.store[k].committedRevision
    requires s'.store == s.store[k := c'] && s'.repos == s.repos && s'.fenced == s.fenced
    requires s'.clock == s.clock && s'.snapshots == s.snapshots && c'.lease.Some? && c'.lease.value.commandID == k
    ensures SharedInv(s') && Evolves(s.store, s.repos, s'.store, s'.repos)
  {
    hide Valid, StoreInv, Retained, RepoInv, KeepsExclusive, FencedLandings, Evolves;
    StoreUpdate(s.store, s.clock, k, c');
    PerformRepo(s, c'.lease.value, Heartbeat(0), c');
    forall p | p in s.snapshots
      ensures Retained(s'.store, p)
    {
      RetainedUpdate(s.store, p, k, c');
    }
  }

  lemma ClaimInv(s: State, t: nat, k: string, owner: string, configDigest: string, duration: int, s': State)
    requires Inv(s) && ClaimStep(s, t, k, owner, configDigest, duration, s')
    ensures Inv(s')
  {
    hide StoreInv, RepoInv, SnapshotsInv, FencedLandings, Valid, PhaseInv, Evolves, ClaimArguments, FirstEligible,
      KeepsExclusive, ClaimedCommand;
    ClaimOne(s.store, s.clock, k, owner, configDigest, duration);
    ClaimShared(s, k, s'.store[k], s');
    assert forall u | u in s.threads :: ThreadInv(s.store, s.repos, s.fenced, s.threads[u]);
    ThreadsStable(s, s', t);
    GrantedInv(s', s'.threads[t].lease);
  }

  lemma GrantedInv(s: State, lease: Lease)
    ensures PhaseInv(s.store, s.repos, s.fenced, lease, Granted)
  {
  }
}
