/**
 Why safe abandonment needs pushes to land under an active lease: a run in which a worker's push lands after its
 lease was taken over, while the next owner finds the head moved and fails the command.
 */
module DesiredStateLateLanding {
  import opened Identifiers
  import opened Naming
  import opened DesiredStateModel
  import opened DesiredStateStore
  import opened DesiredStateGit
  import opened DesiredStateProtocol
  import opened DesiredStateSafety

  // Sample identifiers.

  function Revision(c: char): string {
    seq(40, _ => c)
  }

  function Digest(): string {
    "sha256:" + seq(64, _ => '0')
  }

  function Owner(): string {
    seq(16, _ => 'w')
  }

  const DURATION: int := MINIMUM_LEASE
  const EARLY: Time := 1
  const LATE: Time := EARLY + DURATION

  lemma SamplesAreValid()
    ensures IsUuid(SampleUuid()) && IsCommit(Revision('a')) && IsCommit(Revision('b')) && IsDigest(Digest())
            && IsOwner(Owner(), 16)
    ensures Revision('a') != Revision('b') && Revision('a') != "" && SampleUuid() != ""
  {
    assert Digest()[..7] == "sha256:" && Digest()[7..] == seq(64, _ => '0');
    assert Revision('a')[0] == 'a' && Revision('b')[0] == 'b';
  }

  function SampleTarget(): Target {
    Target(SampleUuid(), SampleUuid(), SampleUuid(), SampleUuid(), "", "", Revision('a'), 1, "n", "n", "n",
      Revision('a'), "", "", Digest(), "p", "p---\n")
  }

  function SampleCommand(): Command {
    var plan := Plan(
      SampleUuid(), 1, SampleUuid(), SampleUuid(), SampleUuid(), SampleUuid(), "", "", Revision('a'), 1,
      DesiredStatePath(SampleUuid()), "n", "n", "n",
      Revision('a'), CreateIfAbsent, NoETag, "", Digest(), "", NativeOCI, "p", "p---\n", ContentDigest("p---\n"),
      PlanMessage(SampleUuid(), 1), EARLY);
    Command(plan, Pending, "", None, "", None, None, EARLY, 0, "", 0, None, EARLY, None)
  }

  predicate Clean(s: string) {
    '\0' !in s && '\r' !in s
  }

  lemma CleanConcat(a: string, b: string)
    requires Clean(a) && Clean(b)
    ensures Clean(a + b)
  {
  }

  lemma CleanWords()
    ensures Clean("Reconcile Argo ") && Clean("desired state ") && Clean("for ") && Clean("environment ")
            && Clean(" generation ")
  {
  }

  lemma CleanPrefix()
    ensures var a := "Reconcile Argo desired state for environment "; |a| == 45 && Clean(a)
  {
    CleanWords();
    hide Clean;
    CleanConcat("Reconcile Argo ", "desired state ");
    CleanConcat("Reconcile Argo " + "desired state ", "for ");
    CleanConcat("Reconcile Argo " + "desired state " + "for ", "environment ");
    assert "Reconcile Argo desired state for environment "
      == "Reconcile Argo " + "desired state " + "for " + "environment ";
  }

  lemma SampleMessage()
    ensures 0 < |PlanMessage(SampleUuid(), 1)| <= 512 && Clean(PlanMessage(SampleUuid(), 1))
  {
    CleanPrefix();
    CleanWords();
    assert Decimal(1) == [DigitChar(1)] && Clean(Decimal(1)) && Clean(SampleUuid()) && |SampleUuid()| == 36;
    hide Decimal, DigitChar, Clean, SampleUuid;
    var a, b := "Reconcile Argo desired state for environment ", " generation ";
    CleanConcat(a, SampleUuid());
    CleanConcat(a + SampleUuid(), b);
    CleanConcat(a + SampleUuid() + b, Decimal(1));
  }

  lemma SampleIsValid()
    ensures Valid(SampleCommand()) && Creatable(SampleCommand())
    ensures NewCommand(SampleUuid(), SampleTarget(), None, EARLY) == Planned(SampleCommand())
  {
    SamplesAreValid();
    SampleMessage();
    hide IsUuid, IsCommit, IsDigest, PlanMessage, SampleUuid, Revision, Digest;
    assert IsKubeName("n");
    assert "p" + "---\n" <= "p---\n";
  }

  // The run, for any fresh command on a branch with one commit.

  /** A just-planned command whose base `g` is the only commit of its branch; `d` will be the late commit. */
  predicate Setting(c: Command, g: GitCommit, d: string) {
    && IsUuid(c.plan.id) && c.state == Pending && c.lease == None && c.leaseEpoch == 0 && c.nextAttemptAt <= EARLY
    && c.updatedAt <= EARLY
    && c.writeBaseRevision == "" && c.plan.createdAt <= EARLY && c.consecutiveFailures == 0
    && c.plan.baseRevision == g.id && c.plan.precondition == CreateIfAbsent && c.plan.path !in g.tree
    && IsCommit(g.id) && IsCommit(d) && d != g.id && g.id != ""
  }

  function Snap(c: Command): Snapshot {
    Snapshot(c.plan.environmentID, "", "")
  }

  function At(c: Command, h: History, clock: Time, threads: map<nat, Thread>): State {
    State(map[c.plan.id := c], map[c.plan.platformBindingID := h], clock, threads, {Snap(c)}, map[])
  }

  function First(c: Command): Command {
    ClaimedCommand(c, Owner(), CONTRACT, Digest(), EARLY, DURATION)
  }

  function Bound(c: Command, g: GitCommit): Command {
    First(c).(writeBaseRevision := g.id, writeBaseObservedAt := Some(EARLY), updatedAt := EARLY)
  }

  function Second(c: Command, g: GitCommit): Command {
    ClaimedCommand(Bound(c, g), Owner(), CONTRACT, Digest(), LATE, DURATION)
  }

  function Dead(c: Command, g: GitCommit): Command {
    Second(c, g).(state := Failed, consecutiveFailures := 1, lastFailureCode := "stale-git-base", lease := None,
                  updatedAt := LATE, completedAt := Some(LATE))
  }

  function One(lease: Lease, phase: Phase): map<nat, Thread> {
    map[0 := Thread(lease, phase)]
  }

  function Two(first: Lease, phase: Phase, second: Lease, phase': Phase): map<nat, Thread> {
    map[0 := Thread(first, phase), 1 := Thread(second, phase')]
  }

  lemma Claims(c: Command, s: State, t: nat, now: Time)
    requires s.store == map[c.plan.id := c] && Claimable(c, now) && s.clock <= now && now > ZERO_TIME && t !in s.threads
    requires IsOwner(Owner(), 16) && IsDigest(Digest())
    ensures var c' := ClaimedCommand(c, Owner(), CONTRACT, Digest(), now, DURATION);
            Next(s, Claim(t, c.plan.id, Owner(), Digest(), DURATION), now,
                 s.(clock := now, store := map[c.plan.id := c'],
                   threads := s.threads[t := Thread(c'.lease.value, Granted)]))
  {
    hide IsOwner, IsDigest, Owner, Digest;
    var k := c.plan.id;
    var c' := ClaimedCommand(c, Owner(), CONTRACT, Digest(), now, DURATION);
    assert FirstEligible(s.store, k, now);
    assert s.store[k := c'] == map[k := c'];
  }

  lemma EarlySteps(c: Command, g: GitCommit, d: string)
    requires Setting(c, g, d) && IsOwner(Owner(), 16) && IsDigest(Digest())
    ensures var h := [g];
            var c1, c2 := First(c), Bound(c, g);
            var lease := c1.lease.value;
            && Next(At(c, h, EARLY, map[]), Claim(0, c.plan.id, Owner(), Digest(), DURATION), EARLY,
               At(c1, h, EARLY, One(lease, Granted)))
            && Next(At(c1, h, EARLY, One(lease, Granted)), Load(0), EARLY, At(c1, h, EARLY, One(lease, Loaded(c1))))
            && Next(At(c1, h, EARLY, One(lease, Loaded(c1))), SeeHead(0), EARLY,
               At(c1, h, EARLY, One(lease, HeadSeen(c1, 1))))
  {
    Claims(c, At(c, [g], EARLY, map[]), 0, EARLY);
    hide IsOwner, IsDigest, Owner, Digest, IsUuid, IsCommit, ClaimStep;
    var c1 := First(c);
    var lease := c1.lease.value;
    var m: map<nat, Thread> := map[];
    assert m[0 := Thread(lease, Granted)] == One(lease, Granted);
    assert At(c, [g], EARLY, map[]).(clock := EARLY) == At(c, [g], EARLY, map[]);
    assert One(lease, Granted)[0 := Thread(lease, Loaded(c1))] == One(lease, Loaded(c1));
    assert One(lease, Loaded(c1))[0 := Thread(lease, HeadSeen(c1, 1))] == One(lease, HeadSeen(c1, 1));
  }

  lemma NothingToFind(g: GitCommit, m: Mutation)
    ensures SearchAnswer([g], m, Absent)
  {
  }

  /** The worker binds the head as its write base. */
  lemma BindBase(c: Command, g: GitCommit, d: string)
    requires Setting(c, g, d) && IsOwner(Owner(), 16) && IsDigest(Digest())
    ensures var h := [g];
            var c1, c2 := First(c), Bound(c, g);
            var lease := c1.lease.value;
            Next(At(c1, h, EARLY, One(lease, HeadSeen(c1, 1))), Bind(0, EARLY, true), EARLY,
              At(c2, h, EARLY, One(lease, Ready(c2, 1))))
  {
    hide IsOwner, IsDigest, Owner, Digest, IsUuid, IsCommit;
    var h, c1, c2 := [g], First(c), Bound(c, g);
    var lease := c1.lease.value;
    var s := At(c1, h, EARLY, One(lease, HeadSeen(c1, 1)));
    assert h[..1] == h && HasBefore(h, 1, g.id) by {
      assert h[0].id == g.id;
    }
    assert Perform(s.store, lease, BindWriteBase(g.id, EARLY), EARLY) == Ok(c2);
    hide Perform;
    assert s.store[c.plan.id := c2] == map[c.plan.id := c2];
    assert One(lease, HeadSeen(c1, 1))[0 := Thread(lease, Ready(c2, 1))] == One(lease, Ready(c2, 1));
  }

  /** With the head still at its write base, a worker goes on to push. */
  lemma Routes(c: Command, g: GitCommit, s: State, t: nat)
    requires s.store == map[c.plan.id := c] && s.repos == map[c.plan.platformBindingID := [g]] && c.state == Claimed
    requires t in s.threads && s.threads[t].phase == Ready(c, 1) && c.writeBaseRevision == g.id != ""
    requires c.plan.precondition == CreateIfAbsent && c.plan.path !in g.tree
    ensures Next(s, Route(t, Absent), s.clock, s.(threads := s.threads[t := Thread(s.threads[t].lease, Pushing(c, 1))]))
  {
    NothingToFind(g, CommandMutation(c));
    hide SearchAnswer;
    assert [g][..1] == [g];
    assert s.(clock := s.clock) == s;
  }

  /** The lease expires, and a second worker gets as far as the first. */
  lemma Takeover(c: Command, g: GitCommit, d: string)
    requires Setting(c, g, d) && IsOwner(Owner(), 16) && IsDigest(Digest())
    ensures var h, c2, c3 := [g], Bound(c, g), Second(c, g);
            var x, y := c2.lease.value, c3.lease.value;
            var p := Pushing(c2, 1);
            && Next(At(c2, h, EARLY, One(x, p)), Claim(1, c.plan.id, Owner(), Digest(), DURATION), LATE,
               At(c3, h, LATE, Two(x, p, y, Granted)))
            && Next(At(c3, h, LATE, Two(x, p, y, Granted)), Load(1), LATE, At(c3, h, LATE, Two(x, p, y, Loaded(c3))))
            && Next(At(c3, h, LATE, Two(x, p, y, Loaded(c3))), SeeHead(1), LATE,
               At(c3, h, LATE, Two(x, p, y, HeadSeen(c3, 1))))
  {
    var h, c2, c3 := [g], Bound(c, g), Second(c, g);
    var x, y := c2.lease.value, c3.lease.value;
    var p := Pushing(c2, 1);
    Claims(c2, At(c2, h, EARLY, One(x, p)), 1, LATE);
    hide IsOwner, IsDigest, Owner, Digest, IsUuid, IsCommit, ClaimStep;
    assert One(x, p)[1 := Thread(y, Granted)] == Two(x, p, y, Granted);
    assert Two(x, p, y, Granted)[1 := Thread(y, Loaded(c3))] == Two(x, p, y, Loaded(c3));
    assert Two(x, p, y, Loaded(c3))[1 := Thread(y, HeadSeen(c3, 1))] == Two(x, p, y, HeadSeen(c3, 1));
  }

  /** The second worker resumes from the bound write base. */
  lemma ResumeBase(c: Command, g: GitCommit, d: string)
    requires Setting(c, g, d) && IsOwner(Owner(), 16) && IsDigest(Digest())
    ensures var h, c2, c3 := [g], Bound(c, g), Second(c, g);
            var x, y := c2.lease.value, c3.lease.value;
            var p := Pushing(c2, 1);
            Next(At(c3, h, LATE, Two(x, p, y, HeadSeen(c3, 1))), Resume(1), LATE,
              At(c3, h, LATE, Two(x, p, y, Ready(c3, 1))))
  {
    hide IsOwner, IsDigest, Owner, Digest, IsUuid, IsCommit;
    var h, c2, c3 := [g], Bound(c, g), Second(c, g);
    var x, y := c2.lease.value, c3.lease.value;
    var p := Pushing(c2, 1);
    assert h[..1] == h && HasBefore(h, 1, g.id) by {
      assert h[0].id == g.id;
    }
    assert Two(x, p, y, HeadSeen(c3, 1))[1 := Thread(y, Ready(c3, 1))] == Two(x, p, y, Ready(c3, 1));
  }

  lemma BothRoute(c: Command, g: GitCommit, d: string)
    requires Setting(c, g, d) && IsOwner(Owner(), 16) && IsDigest(Digest())
    ensures var h, c2, c3 := [g], Bound(c, g), Second(c, g);
            var x, y := c2.lease.value, c3.lease.value;
            var p := Pushing(c2, 1);
            && Next(At(c2, h, EARLY, One(x, Ready(c2, 1))), Route(0, Absent), EARLY, At(c2, h, EARLY, One(x, p)))
            && Next(At(c3, h, LATE, Two(x, p, y, Ready(c3, 1))), Route(1, Absent), LATE,
               At(c3, h, LATE, Two(x, p, y, Pushing(c3, 1))))
  {
    hide IsOwner, IsDigest, Owner, Digest, IsUuid, IsCommit, Next;
    var h, c2, c3 := [g], Bound(c, g), Second(c, g);
    var x, y := c2.lease.value, c3.lease.value;
    var p := Pushing(c2, 1);
    Routes(c2, g, At(c2, h, EARLY, One(x, Ready(c2, 1))), 0);
    assert One(x, Ready(c2, 1))[0 := Thread(x, p)] == One(x, p);
    Routes(c3, g, At(c3, h, LATE, Two(x, p, y, Ready(c3, 1))), 1);
    assert Two(x, p, y, Ready(c3, 1))[1 := Thread(y, Pushing(c3, 1))] == Two(x, p, y, Pushing(c3, 1));
  }

  function Landing(c: Command, g: GitCommit, d: string): History {
    [g, GitCommit(d, c.plan.id, g.tree[c.plan.path := c.plan.content])]
  }

  /** A push at the head lands; under a lease that is no longer the stored one it is not recorded as fenced. */
  lemma Lands(c: Command, x: Lease, own: Command, g: GitCommit, d: string, s: State, t: nat)
    requires s.store == map[c.plan.id := c] && s.repos == map[c.plan.platformBindingID := [g]] && s.fenced == map[]
             && c.lease != Some(x)
    requires t in s.threads && s.threads[t] == Thread(x, Pushing(own, 1)) && own.plan == c.plan
             && own.writeBaseRevision == g.id != ""
    requires IsCommit(d) && d != g.id
    ensures Next(s, Push(t, d, false), s.clock,
                 s.(repos := map[c.plan.platformBindingID := Landing(c, g, d)],
                   threads := s.threads[t := Thread(x, Erred(Transient))]))
  {
    hide IsCommit;
    var b := c.plan.platformBindingID;
    assert !HasBefore([g], 1, d);
    assert [g] + [Landing(c, g, d)[1]] == Landing(c, g, d);
    assert map[b := [g]][b := Landing(c, g, d)] == map[b := Landing(c, g, d)];
    assert s.(clock := s.clock) == s;
  }

  lemma Rejects(c: Command, own: Command, g: GitCommit, d: string, s: State, t: nat)
    requires s.repos == map[c.plan.platformBindingID := Landing(c, g, d)] && d != g.id
    requires t in s.threads && s.threads[t].phase == Pushing(own, 1) && own.plan == c.plan
             && own.writeBaseRevision == g.id != ""
    ensures Next(s, RejectPush(t), s.clock, s.(threads := s.threads[t := s.threads[t].(phase := Erred(WriteNotFound))]))
  {
    assert s.(clock := s.clock) == s;
  }

  /** The first worker's push lands after all, and the second worker finds the head moved. */
  lemma LandLate(c: Command, g: GitCommit, d: string)
    requires Setting(c, g, d) && IsOwner(Owner(), 16) && IsDigest(Digest())
    ensures var h, h', c2, c3 := [g], Landing(c, g, d), Bound(c, g), Second(c, g);
            var x, y := c2.lease.value, c3.lease.value;
            var e := Erred(Transient);
            && Next(At(c3, h, LATE, Two(x, Pushing(c2, 1), y, Pushing(c3, 1))), Push(0, d, false), LATE,
                    At(c3, h', LATE, Two(x, e, y, Pushing(c3, 1))))
            && Next(At(c3, h', LATE, Two(x, e, y, Pushing(c3, 1))), RejectPush(1), LATE,
                    At(c3, h', LATE, Two(x, e, y, Erred(WriteNotFound))))
  {
    hide IsOwner, IsDigest, Owner, Digest, IsUuid, IsCommit, Next, Landing;
    var h, h', c2, c3 := [g], Landing(c, g, d), Bound(c, g), Second(c, g);
    var x, y := c2.lease.value, c3.lease.value;
    var e := Erred(Transient);
    SameLanding(c, c3, g, d);
    Lands(c3, x, c2, g, d, At(c3, h, LATE, Two(x, Pushing(c2, 1), y, Pushing(c3, 1))), 0);
    assert Two(x, Pushing(c2, 1), y, Pushing(c3, 1))[0 := Thread(x, e)] == Two(x, e, y, Pushing(c3, 1));
    Rejects(c3, c3, g, d, At(c3, h', LATE, Two(x, e, y, Pushing(c3, 1))), 1);
    assert Two(x, e, y, Pushing(c3, 1))[1 := Thread(y, Erred(WriteNotFound))] == Two(x, e, y, Erred(WriteNotFound));
  }

  lemma SameLanding(c: Command, c': Command, g: GitCommit, d: string)
    requires c'.plan == c.plan
    ensures Landing(c', g, d) == Landing(c, g, d)
  {
  }

  lemma Decides(c: Command, s: State, t: nat)
    requires s.store == map[c.plan.id := c] && c.lease.Some? && c.lease.value.commandID == c.plan.id
             && c.lease.value.until > s.clock
    requires t in s.threads && s.threads[t] == Thread(c.lease.value, Erred(WriteNotFound))
    ensures Next(s, Decide(t), s.clock,
            s.(threads := s.threads[t := Thread(c.lease.value, Deciding(c, WriteNotFound))]))
  {
    assert s.(clock := s.clock) == s;
  }

  lemma Settles(c: Command, dead: Command, s: State, t: nat)
    requires s.store == map[c.plan.id := c] && c.lease.Some? && s.clock == LATE && c.lease.value.commandID == c.plan.id
    requires t in s.threads && s.threads[t] == Thread(c.lease.value, Deciding(c, WriteNotFound))
    requires Disposition(c, WriteNotFound, LATE) == Fail("stale-git-base")
    requires Perform(map[c.plan.id := c], c.lease.value, Fail("stale-git-base"), LATE) == Ok(dead)
    ensures Next(s, Settle(t), LATE, s.(store := map[c.plan.id := dead], threads := s.threads - {t}))
  {
    hide Perform, Disposition;
    assert map[c.plan.id := c][c.plan.id := dead] == map[c.plan.id := dead];
    assert s.(clock := s.clock) == s;
  }

  /** So the second worker fails the command. */
  lemma GiveUp(c: Command, g: GitCommit, d: string)
    requires Setting(c, g, d) && IsOwner(Owner(), 16) && IsDigest(Digest())
    ensures var h', c2, c3, c4 := Landing(c, g, d), Bound(c, g), Second(c, g), Dead(c, g);
            var x, y := c2.lease.value, c3.lease.value;
            var e := Erred(Transient);
            && Next(At(c3, h', LATE, Two(x, e, y, Erred(WriteNotFound))), Decide(1), LATE,
                    At(c3, h', LATE, Two(x, e, y, Deciding(c3, WriteNotFound))))
            && Next(At(c3, h', LATE, Two(x, e, y, Deciding(c3, WriteNotFound))), Settle(1), LATE,
               At(c4, h', LATE, One(x, e)))
  {
    hide IsOwner, IsDigest, Owner, Digest, IsUuid, IsCommit, Next, Landing, Perform, Disposition;
    var h', c2, c3, c4 := Landing(c, g, d), Bound(c, g), Second(c, g), Dead(c, g);
    var x, y := c2.lease.value, c3.lease.value;
    var e := Erred(Transient);
    Decides(c3, At(c3, h', LATE, Two(x, e, y, Erred(WriteNotFound))), 1);
    assert Two(x, e, y, Erred(WriteNotFound))[1 := Thread(y, Deciding(c3, WriteNotFound))]
      == Two(x, e, y, Deciding(c3, WriteNotFound));
    FailsNow(c3, c4);
    Settles(c3, c4, At(c3, h', LATE, Two(x, e, y, Deciding(c3, WriteNotFound))), 1);
    assert Two(x, e, y, Deciding(c3, WriteNotFound)) - {1} == One(x, e);
  }

  lemma FailsNow(c: Command, dead: Command)
    requires c.state == Claimed && c.lease.Some? && c.lease.value.Valid() && c.lease.value.until > LATE
             && c.lease.value.commandID == c.plan.id
    requires dead == c.(state := Failed, consecutiveFailures := Saturating(c.consecutiveFailures),
                        lastFailureCode := "stale-git-base", lease := None, updatedAt := LATE,
                        completedAt := Some(LATE))
    ensures Disposition(c, WriteNotFound, LATE) == Fail("stale-git-base")
    ensures Perform(map[c.plan.id := c], c.lease.value, Fail("stale-git-base"), LATE) == Ok(dead)
  {
    hide IsOwner, IsDigest, IsUuid;
    assert IsFailureCode("stale-git-base");
  }

  // Putting the run together.

  lemma Extend(states: seq<State>, events: seq<Event>, action: Label, now: Time, s: State)
    returns (ss: seq<State>, es: seq<Event>)
    requires IsRun(states, events) && Next(states[|events|], action, now, s)
    ensures IsRun(ss, es) && es == events + [Event(action, now)] && ss == states + [s] && ss[|es|] == s
  {
    hide Next, Init;
    ss, es := states + [s], events + [Event(action, now)];
    forall i | 0 <= i < |es|
      ensures Next(ss[i], es[i].action, es[i].now, ss[i + 1])
    {
      if i < |events| {
        assert ss[i] == states[i] && ss[i + 1] == states[i + 1] && es[i] == events[i];
      }
    }
  }

  lemma Begin(c: Command, g: GitCommit, target: Target) returns (states: seq<State>, events: seq<Event>)
    requires Creatable(c) && NewCommand(c.plan.id, target, None, EARLY) == Planned(c)
             && c.plan.environmentID == target.environmentID
    requires c.plan.generation == 1 && g.operation == ""
    ensures IsRun(states, events) && states[|events|] == At(c, [g], EARLY, map[])
  {
    var s0 := State(map[], map[c.plan.platformBindingID := [g]], EARLY, map[], {}, map[]);
    var s1 := s0.(snapshots := {Snap(c)});
    hide NewCommand, Creatable, Valid;
    states, events := [s0], [];
    assert s0.(clock := EARLY) == s0 && s1.(clock := EARLY) == s1;
    assert {} + {Snap(c)} == {Snap(c)};
    assert Next(s0, PlanSnapshot(Snap(c)), EARLY, s1);
    states, events := Extend(states, events, PlanSnapshot(Snap(c)), EARLY, s1);
    assert CreateOutcome(s1.store, c) == Ok(true);
    assert Next(s1, PlanCreate(Snap(c), c.plan.id, target, EARLY), EARLY, At(c, [g], EARLY, map[]));
    states, events := Extend(states, events, PlanCreate(Snap(c), c.plan.id, target, EARLY), EARLY,
      At(c, [g], EARLY, map[]));
  }

  lemma LateRun(c: Command, g: GitCommit, d: string, begun: seq<State>, before: seq<Event>)
    returns (states: seq<State>, events: seq<Event>)
    requires Setting(c, g, d) && IsOwner(Owner(), 16) && IsDigest(Digest())
    requires IsRun(begun, before) && begun[|before|] == At(c, [g], EARLY, map[])
    ensures IsRun(states, events)
    ensures states[|events|] == At(Dead(c, g), Landing(c, g, d), LATE, One(Bound(c, g).lease.value, Erred(Transient)))
  {
    EarlySteps(c, g, d);
    BindBase(c, g, d);
    Takeover(c, g, d);
    ResumeBase(c, g, d);
    BothRoute(c, g, d);
    LandLate(c, g, d);
    GiveUp(c, g, d);
    var h, h', c1, c2, c3, c4 := [g], Landing(c, g, d), First(c), Bound(c, g), Second(c, g), Dead(c, g);
    var x, y := c1.lease.value, c3.lease.value;
    var p, q, e := Pushing(c2, 1), Pushing(c3, 1), Erred(Transient);
    assert x == c2.lease.value;
    hide Next, IsRun, At, One, Two, Landing, First, Bound, Second, Dead, IsOwner, IsDigest, Setting;
    states, events := Extend(begun, before, Claim(0, c.plan.id, Owner(), Digest(), DURATION), EARLY,
      At(c1, h, EARLY, One(x, Granted)));
    states, events := Extend(states, events, Load(0), EARLY, At(c1, h, EARLY, One(x, Loaded(c1))));
    states, events := Extend(states, events, SeeHead(0), EARLY, At(c1, h, EARLY, One(x, HeadSeen(c1, 1))));
    states, events := Extend(states, events, Bind(0, EARLY, true), EARLY, At(c2, h, EARLY, One(x, Ready(c2, 1))));
    states, events := Extend(states, events, Route(0, Absent), EARLY, At(c2, h, EARLY, One(x, p)));
    states, events := Extend(states, events, Claim(1, c.plan.id, Owner(), Digest(), DURATION), LATE,
      At(c3, h, LATE, Two(x, p, y, Granted)));
    states, events := Extend(states, events, Load(1), LATE, At(c3, h, LATE, Two(x, p, y, Loaded(c3))));
    states, events := Extend(states, events, SeeHead(1), LATE, At(c3, h, LATE, Two(x, p, y, HeadSeen(c3, 1))));
    states, events := Extend(states, events, Resume(1), LATE, At(c3, h, LATE, Two(x, p, y, Ready(c3, 1))));
    states, events := Extend(states, events, Route(1, Absent), LATE, At(c3, h, LATE, Two(x, p, y, q)));
    states, events := Extend(states, events, Push(0, d, false), LATE, At(c3, h', LATE, Two(x, e, y, q)));
    states, events := Extend(states, events, RejectPush(1), LATE, At(c3, h', LATE, Two(x, e, y, Erred(WriteNotFound))));
    states, events := Extend(states, events, Decide(1), LATE,
      At(c3, h', LATE, Two(x, e, y, Deciding(c3, WriteNotFound))));
    states, events := Extend(states, events, Settle(1), LATE, At(c4, h', LATE, One(x, e)));
  }

  /** Without the lease condition on pushes, a failed command can have its commit in history. */
  lemma FailedCommandCanLand() returns (states: seq<State>, events: seq<Event>, k: string, b: string)
    ensures IsRun(states, events)
    ensures var s := states[|events|];
            && k in s.store && Abandoned(s.store[k].state)
            && b in s.repos && |s.repos[b]| == 2 && s.repos[b][1].operation == k
  {
    SamplesAreValid();
    SampleIsValid();
    var c, g := SampleCommand(), GitCommit(Revision('a'), "", map[]);
    k, b := c.plan.id, c.plan.platformBindingID;
    var begun, before := Begin(c, g, SampleTarget());
    hide IsRun, SampleUuid, Revision, Digest, Owner, IsUuid, IsCommit;
    states, events := LateRun(c, g, Revision('b'), begun, before);
  }

  // Acknowledging before a write base is bound.

  /** There is a valid claimed command that the store lets acknowledge a commit without a write base. */
  lemma AcknowledgedUnbound() returns (s: Commands, lease: Lease, revision: string, now: Time)
    ensures now > ZERO_TIME && lease.commandID in s && Valid(s[lease.commandID])
    ensures s[lease.commandID].state == Claimed && s[lease.commandID].writeBaseRevision == ""
    ensures var r := Perform(s, lease, MarkGitCommitted(revision), now); r.Ok? && !Valid(r.value)
  {
    SamplesAreValid();
    SampleIsValid();
    var c := SampleCommand();
    hide IsOwner, IsDigest, Owner, Digest, IsUuid, IsCommit, SampleUuid, Revision, Valid;
    ClaimKeepsValid(c, Owner(), CONTRACT, Digest(), EARLY, DURATION);
    s, lease, revision, now := map[c.plan.id := First(c)], First(c).lease.value, Revision('b'), EARLY;
    UnboundAcknowledgement(s, lease, revision, now);
  }
}
