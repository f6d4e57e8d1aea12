/** When an auto-deploy run can still change, which runs never change again, and which hold up the others. */
module AutoDeployProgress {
  import opened Identifiers
  import opened AutoDeployRuns
  import opened AutoDeployProtocol

  // Which runs can still change.

  /** A controller still holds the run's current lease. */
  ghost predicate Tended(controllers: map<nat, Controller>, r: Run, clock: Time) {
    && r.state == Processing && r.leaseUntil > clock
    && exists c :: c in controllers && Matches(controllers[c].lease, r)
  }

  predicate Matches(lease: Lease, r: Run) {
    lease.id == r.id && lease.owner == r.leaseOwner && lease.epoch == r.leaseEpoch
  }

  /** An attempt is left and its policy still has the run's revision, or a controller is at work on it. */
  ghost predicate MayChange(s: State, k: RunID)
    requires k in s.runs
  {
    var r := s.runs[k];
    && !Terminal(r.state)
    && ((r.attempts < MAX_ATTEMPTS && Workable(s.policies, r)) || Tended(s.controllers, r, s.clock))
  }

  /** Some next step changes the run. */
  ghost predicate Changes(s: State, e: Event, s': State, k: RunID)
    requires k in s.runs
  {
    Next(s, e, s') && (k in s'.runs ==> s'.runs[k] != s.runs[k])
  }

  lemma ClaimWorks(s: State, l: Label, s': State, k: RunID)
    requires Acts(s, l, s') && k in s.runs && ChangeOf(s, l, k).ClaimedBy?
    ensures s.runs[k].attempts < MAX_ATTEMPTS && !Terminal(s.runs[k].state) && Workable(s.policies, s.runs[k])
  {
  }

  lemma UpdateTends(s: State, l: Label, s': State, k: RunID)
    requires Acts(s, l, s') && k in s.runs && s.runs[k].id == k && ChangeOf(s, l, k).UpdatedBy?
    ensures Tended(s.controllers, s.runs[k], s.clock)
  {
    hide Acceptable, Updated;
    assert Guarded(s.runs[k], ChangeOf(s, l, k).lease, s.clock);
    assert Matches(s.controllers[l.c].lease, s.runs[k]);
  }

  lemma TendedEarlier(controllers: map<nat, Controller>, r: Run, clock: Time, now: Time)
    requires clock <= now
    ensures Tended(controllers, r, now) ==> Tended(controllers, r, clock)
  {
  }

  lemma OnlyIfMayChange(s: State, e: Event, s': State, k: RunID)
    requires Inv(s) && k in s.runs && Changes(s, e, s', k)
    ensures MayChange(s, k)
  {
    hide Acts, Shape, ControllerInv, Records, Revised, ChangeOf, Tended;
    var t := s.(clock := e.now);
    RunChange(t, e.action, s', k);
    var change := ChangeOf(t, e.action, k);
    match change {
      case Same =>
      case ClaimedBy(_, _) => ClaimWorks(t, e.action, s', k);
      case UpdatedBy(_, _) =>
        UpdateTends(t, e.action, s', k);
        TendedEarlier(s.controllers, s.runs[k], s.clock, e.now);
        TendedIsLive(s.controllers, s.runs[k], s.clock);
    }
  }

  lemma TendedIsLive(controllers: map<nat, Controller>, r: Run, clock: Time)
    requires Tended(controllers, r, clock)
    ensures !Terminal(r.state)
  {
  }

  lemma {:induction false} FreshName(names: set<nat>) returns (c: nat)
    ensures c !in names
    ensures forall n | n in names :: n < c
    decreases |names|
  {
    if names == {} {
      c := 0;
    } else {
      var n :| n in names;
      assert names == (names - {n}) + {n};
      c := FreshName(names - {n});
      c := if n < c then c else n + 1;
    }
  }

  /** A run that is first among the rows nobody has locked is claimed if its policy is current. */
  lemma ClaimAt(s: State, k: RunID, now: Time, locked: set<RunID>) returns (e: Event, s': State)
    requires Inv(s) && s.clock <= now && FirstClaimable(s.runs, locked, k, now) && Workable(s.policies, s.runs[k])
    ensures Changes(s, e, s', k) && e.action.Claim? && e.action.locked == locked
  {
    hide Shape, ControllerInv, Records, Revised, Before;
    var c := FreshName(s.controllers.Keys);
    var claimed := Claimed(s.runs[k], "o", now, 15 * SECOND);
    e := Event(Claim(c, k, "o", 15 * SECOND, locked), now);
    s' := To(s.(clock := now), c,
      Controller(LeaseOf(claimed), KeyOf(claimed), Checking)).(runs := s.runs[k := claimed]);
    assert s'.runs[k].attempts == s.runs[k].attempts + 1;
  }

  /** When a run that is not terminal is due next. */
  function DueAt(r: Run, clock: Time): Time {
    var due := if r.state == Processing && r.leaseUntil > r.availableAt then r.leaseUntil else r.availableAt;
    if due > clock then due else clock
  }

  /** A run with an attempt left and a current policy is claimed once it is due, if all others are locked. */
  lemma ClaimHappens(s: State, k: RunID) returns (e: Event, s': State)
    requires Inv(s) && k in s.runs && !Terminal(s.runs[k].state)
    requires s.runs[k].attempts < MAX_ATTEMPTS && Workable(s.policies, s.runs[k])
    ensures Changes(s, e, s', k)
  {
    hide Inv, Changes, Before, Workable;
    e, s' := ClaimAt(s, k, DueAt(s.runs[k], s.clock), s.runs.Keys - {k});
  }

  /** A run under a controller's lease can be given up. */
  lemma GiveUpHappens(s: State, k: RunID) returns (e: Event, s': State)
    requires Inv(s) && k in s.runs && Tended(s.controllers, s.runs[k], s.clock)
    ensures Changes(s, e, s', k) && e.action.GiveUp?
  {
    hide Shape, Records, Revised, IsUuid;
    var c :| c in s.controllers && Matches(s.controllers[c].lease, s.runs[k]);
    assert ControllerInv(s, s.controllers[c]) && s.runs[k].id == k;
    var lease := s.controllers[c].lease;
    assert IsFailureCode("f");
    var r := Perform(s.runs, lease, Fail("f"), s.clock);
    assert r == Ok(Updated(s.runs[k], lease, Fail("f"), s.clock));
    e := Event(GiveUp(c, Fail("f")), s.clock);
    s' := Gone(s, c).(runs := After(s.runs, lease, r));
    assert s.(clock := s.clock) == s;
  }

  /** In a reachable state, some step can change a run if and only if it may change. */
  lemma CanChange(states: seq<State>, events: seq<Event>, n: nat, k: RunID)
    requires IsRun(states, events) && n < |states| && k in states[n].runs
    ensures (exists e, s' :: Changes(states[n], e, s', k)) <==> MayChange(states[n], k)
  {
    RunInv(states, events, n);
    hide IsRun, Inv, Changes;
    var s := states[n];
    if MayChange(s, k) {
      if s.runs[k].attempts < MAX_ATTEMPTS && Workable(s.policies, s.runs[k]) {
        var e, s' := ClaimHappens(s, k);
      } else {
        var e, s' := GiveUpHappens(s, k);
      }
    }
    if exists e, s' :: Changes(s, e, s', k) {
      var e, s' :| Changes(s, e, s', k);
      OnlyIfMayChange(s, e, s', k);
    }
  }

  // The same while no concurrent transaction holds a row.

  /** When the run is due no other due run precedes it, and its policy is current. */
  ghost predicate Heads(s: State, k: RunID)
    requires k in s.runs
  {
    FirstClaimable(s.runs, {}, k, DueAt(s.runs[k], s.clock)) && Workable(s.policies, s.runs[k])
  }

  ghost predicate Unlocked(e: Event) {
    e.action.Claim? ==> e.action.locked == {}
  }

  /** A run that is first at some instant is first as soon as it is due. */
  lemma FirstWhenDue(rs: Runs, k: RunID, clock: Time, now: Time)
    requires clock <= now && FirstClaimable(rs, {}, k, now)
    ensures FirstClaimable(rs, {}, k, DueAt(rs[k], clock))
  {
    hide Before;
    forall j | j in rs && j != k && Claimable(rs[j], DueAt(rs[k], clock))
      ensures Before(rs[k], rs[j])
    {
      assert Claimable(rs[j], now);
    }
  }

  lemma OnlyIfHeads(s: State, e: Event, s': State, k: RunID)
    requires Inv(s) && k in s.runs && Changes(s, e, s', k) && Unlocked(e)
    ensures Heads(s, k) || Tended(s.controllers, s.runs[k], s.clock)
  {
    hide Shape, ControllerInv, Records, Revised, Tended, FirstClaimable, Claimed, Perform;
    var t := s.(clock := e.now);
    RunChange(t, e.action, s', k);
    var change := ChangeOf(t, e.action, k);
    if change.ClaimedBy? {
      FirstWhenDue(s.runs, k, s.clock, e.now);
    } else if change.UpdatedBy? {
      UpdateTends(t, e.action, s', k);
      TendedEarlier(s.controllers, s.runs[k], s.clock, e.now);
    }
  }

  /**
   With no row locked by others, some step can change a run if and only if it heads the queue when it is due and its
   policy is current, or a controller is at work on it.
   */
  lemma CanChangeUnlocked(states: seq<State>, events: seq<Event>, n: nat, k: RunID)
    requires IsRun(states, events) && n < |states| && k in states[n].runs
    ensures var s := states[n];
            (exists e, s' :: Changes(s, e, s', k) && Unlocked(e)) <==>
              Heads(s, k) || Tended(s.controllers, s.runs[k], s.clock)
  {
    RunInv(states, events, n);
    hide IsRun, Inv, Changes, Heads, Tended;
    var s := states[n];
    if Heads(s, k) {
      var e, s' := HeadClaims(s, k);
    } else if Tended(s.controllers, s.runs[k], s.clock) {
      var e, s' := GiveUpHappens(s, k);
    }
    if exists e, s' :: Changes(s, e, s', k) && Unlocked(e) {
      var e, s' :| Changes(s, e, s', k) && Unlocked(e);
      OnlyIfHeads(s, e, s', k);
    }
  }

  lemma HeadClaims(s: State, k: RunID) returns (e: Event, s': State)
    requires Inv(s) && k in s.runs && Heads(s, k)
    ensures Changes(s, e, s', k) && Unlocked(e)
  {
    hide Inv, Changes, FirstClaimable, Workable;
    e, s' := ClaimAt(s, k, DueAt(s.runs[k], s.clock), {});
  }

  // What cannot change now never can.

  /** A controller of a later state that matches a run matched it before, unless it has just claimed it. */
  lemma MatchedBefore(s: State, l: Label, s': State, k: RunID, c: nat)
    requires Acts(s, l, s') && k in s.runs && WellKeyed(s.runs) && c in s'.controllers
             && Matches(s'.controllers[c].lease, s.runs[k])
    requires s'.runs[k] == s.runs[k]
    ensures c in s.controllers && Matches(s.controllers[c].lease, s.runs[k])
  {
    hide Acceptable, Updated, Perform, Claimable, Before, KeyOf;
  }

  lemma WorkableBefore(s: State, s': State, r: Run)
    requires Grown(s, s') && Revised(s.policies, r)
    ensures Workable(s'.policies, r) ==> Workable(s.policies, r)
  {
    hide KeyOf;
  }

  lemma StepStuck(s: State, e: Event, s': State, k: RunID)
    requires Inv(s) && Next(s, e, s') && k in s.runs && !MayChange(s, k)
    ensures k in s'.runs && s'.runs[k] == s.runs[k] && !MayChange(s', k)
  {
    hide Acts, Shape, ControllerInv, Records, Revised, Workable, KeyOf;
    var t := s.(clock := e.now);
    var r := s.runs[k];
    StepAdvances(t, e.action, s', k);
    StepGrown(t, e.action, s');
    if s'.runs[k] != r {
      OnlyIfMayChange(s, e, s', k);
    }
    WorkableBefore(t, s', r);
    if Tended(s'.controllers, r, s'.clock) {
      var c :| c in s'.controllers && Matches(s'.controllers[c].lease, r);
      MatchedBefore(t, e.action, s', k, c);
      assert Tended(s.controllers, r, s.clock);
    }
  }

  /** A run that cannot change in some state of a run of the system never changes again. */
  lemma {:induction false} StuckForEver(states: seq<State>, events: seq<Event>, m: nat, n: nat, k: RunID)
    requires IsRun(states, events) && m <= n < |states| && k in states[m].runs && !MayChange(states[m], k)
    ensures k in states[n].runs && states[n].runs[k] == states[m].runs[k] && !MayChange(states[n], k)
    decreases n
  {
    hide Inv, Next, MayChange;
    if m < n {
      StuckForEver(states, events, m, n - 1, k);
      RunInv(states, events, n - 1);
      assert Next(states[n - 1], events[n - 1], states[n]);
      StepStuck(states[n - 1], events[n - 1], states[n], k);
    }
  }

  // Two ways to get there.

  function SampleRun(): Run {
    Run(RunID(SampleUuid(), SampleUuid()), 1, Pending, 0, 1, "", 0, ZERO_TIME, "", "", "", 1, 1, None)
  }

  lemma Extend(states: seq<State>, events: seq<Event>, e: Event, s: State) returns (ss: seq<State>, es: seq<Event>)
    requires IsRun(states, events) && Next(states[|events|], e, s)
    ensures IsRun(ss, es) && |es| == |events| + 1 && ss[|es|] == s
  {
    hide Next;
    ss, es := states + [s], events + [e];
    forall i | 0 <= i < |es|
      ensures Next(ss[i], es[i], ss[i + 1])
    {
      if i < |events| {
        assert ss[i] == states[i] && ss[i + 1] == states[i + 1] && es[i] == events[i];
      }
    }
  }

  function Started(runs: Runs, clock: Time): State {
    State(map[SampleUuid() := Policy(1, true)], runs, map[], map[], clock)
  }

  /** A policy is created and a build triggers one run. */
  lemma Enqueued() returns (states: seq<State>, events: seq<Event>)
    ensures IsRun(states, events) && states[|events|] == Started(map[SampleRun().id := SampleRun()], 1)
  {
    hide IsUuid, SampleUuid;
    var s0 := State(map[], map[], map[], map[], 1);
    var s1, s2 := Started(map[], 1), Started(map[SampleRun().id := SampleRun()], 1);
    states, events := [s0], [];
    assert s0.(clock := 1) == s0 && s1.(clock := 1) == s1;
    assert Next(s0, Event(CreatePolicy(SampleUuid(), true), 1), s1);
    states, events := Extend(states, events, Event(CreatePolicy(SampleUuid(), true), 1), s1);
    assert Next(s1, Event(Trigger(SampleRun()), 1), s2);
    states, events := Extend(states, events, Event(Trigger(SampleRun()), 1), s2);
  }

  /** A claim followed by a crash, once the previous lease has expired. */
  lemma ClaimAndCrash(r: Run, clock: Time, now: Time) returns (claimed: State, crashed: State)
    requires clock <= now && now > ZERO_TIME && Claimable(r, now)
    requires r.id == SampleRun().id && r.policyRevision == 1
    ensures Next(Started(map[r.id := r], clock), Event(Claim(0, r.id, "owner", 15 * SECOND, {}), now), claimed)
    ensures Next(claimed, Event(Crash(0), now), crashed)
    ensures crashed == Started(map[r.id := Claimed(r, "owner", now, 15 * SECOND)], now)
  {
    hide SampleUuid;
    var c := Claimed(r, "owner", now, 15 * SECOND);
    claimed := To(Started(map[r.id := c], now), 0, Controller(LeaseOf(c), KeyOf(c), Checking));
    crashed := Started(map[r.id := c], now);
    var s := Started(map[r.id := r], now);
    assert s.runs[r.id := c] == map[r.id := c];
    assert FirstClaimable(s.runs, {}, r.id, now);
    assert Gone(claimed, 0).controllers == map[];
    assert claimed.(clock := now) == claimed;
  }

  lemma {:induction false} ReachAttempts(n: nat) returns (states: seq<State>, events: seq<Event>, r: Run)
    requires n <= MAX_ATTEMPTS
    ensures IsRun(states, events) && states[|events|] == Started(map[r.id := r], states[|events|].clock)
    ensures r.id == SampleRun().id && r.policyRevision == 1 && r.attempts == n && states[|events|].clock > ZERO_TIME
    ensures r.availableAt <= states[|events|].clock && r.state == if n == 0 then Pending else Processing
  {
    if n == 0 {
      states, events := Enqueued();
      r := SampleRun();
    } else {
      var before, steps, last := ReachAttempts(n - 1);
      hide SampleRun, Started, Next;
      var clock := before[|steps|].clock;
      var now := if last.leaseUntil > clock then last.leaseUntil else clock;
      var a, b := ClaimAndCrash(last, clock, now);
      states, events := Extend(before, steps, Event(Claim(0, last.id, "owner", 15 * SECOND, {}), now), a);
      states, events := Extend(states, events, Event(Crash(0), now), b);
      r := Claimed(last, "owner", now, 15 * SECOND);
      StartedClock(map[r.id := r], now);
    }
  }

  lemma StartedClock(runs: Runs, clock: Time)
    ensures Started(runs, clock).clock == clock && Started(runs, clock).runs == runs
            && Started(runs, clock).controllers == map[]
  {
  }

  /** A run whose controller crashes on its last attempt is left in processing and never changes again. */
  lemma LastAttemptStrands() returns (states: seq<State>, events: seq<Event>, k: RunID)
    ensures IsRun(states, events)
    ensures var s := states[|events|]; k in s.runs && s.runs[k].state == Processing && !MayChange(s, k)
  {
    var r;
    states, events, r := ReachAttempts(MAX_ATTEMPTS);
    k := r.id;
    hide IsRun, Started;
    StartedClock(map[r.id := r], states[|events|].clock);
  }

  /** A pending run whose policy is revised never changes again either. */
  lemma RevisionStrands() returns (states: seq<State>, events: seq<Event>, k: RunID)
    ensures IsRun(states, events)
    ensures var s := states[|events|];
            k in s.runs && s.runs[k].state == Pending && Claimable(s.runs[k], s.clock) && !MayChange(s, k)
  {
    var before, steps := Enqueued();
    var s := before[|steps|];
    hide IsRun, SampleUuid;
    k := SampleRun().id;
    var revised := s.(policies := s.policies[k.policyID := Policy(2, true)]);
    assert s.(clock := 1) == s;
    assert Next(s, Event(Revise(k.policyID, true), 1), revised);
    states, events := Extend(before, steps, Event(Revise(k.policyID, true), 1), revised);
  }

  // The head of the queue.

  lemma {:induction false} ClockGrows(states: seq<State>, events: seq<Event>, m: nat, n: nat)
    requires IsRun(states, events) && m <= n < |states|
    ensures states[m].clock <= states[n].clock
    decreases n
  {
    hide Acts;
    if m < n {
      ClockGrows(states, events, m, n - 1);
      var e := events[n - 1];
      assert Next(states[n - 1], e, states[n]);
      StepGrown(states[n - 1].(clock := e.now), e.action, states[n]);
    }
  }

  /** A due run that fails the check inside the claim: it stays due for ever. */
  lemma UnworkableStays(states: seq<State>, events: seq<Event>, m: nat, n: nat, k: RunID)
    requires IsRun(states, events) && m <= n < |states| && k in states[m].runs
    requires Claimable(states[m].runs[k], states[m].clock) && !Workable(states[m].policies, states[m].runs[k])
    ensures k in states[n].runs && states[n].runs[k] == states[m].runs[k] && states[m].clock <= states[n].clock
    ensures Claimable(states[n].runs[k], states[n].clock) && !Workable(states[n].policies, states[n].runs[k])
  {
    assert !MayChange(states[m], k);
    StuckForEver(states, events, m, n, k);
    ClockGrows(states, events, m, n);
    hide IsRun;
  }

  /**
   Every later claim takes a run from before it in the order, or came while a concurrent transaction had it locked.
   */
  lemma ClaimsPassBy(states: seq<State>, events: seq<Event>, m: nat, n: nat, k: RunID)
    requires IsRun(states, events) && m <= n < |events| && k in states[m].runs && events[n].action.Claim?
    requires Claimable(states[m].runs[k], states[m].clock) && !Workable(states[m].policies, states[m].runs[k])
    ensures var j := events[n].action.id;
            && j in states[n].runs && j != k
            && (k in events[n].action.locked || Before(states[n].runs[j], states[m].runs[k]))
  {
    UnworkableStays(states, events, m, n, k);
    assert Next(states[n], events[n], states[n + 1]);
    hide IsRun, Before, KeyOf;
  }

  /** While nobody else holds its lock, such a run keeps every pending run behind it from ever being claimed. */
  lemma {:induction false} QueueIsBlocked(states: seq<State>, events: seq<Event>, m: nat, n: nat, k: RunID, j: RunID)
    requires IsRun(states, events) && m <= n < |states| && k in states[m].runs && j in states[m].runs
    requires Claimable(states[m].runs[k], states[m].clock) && !Workable(states[m].policies, states[m].runs[k])
    requires states[m].runs[j].state == Pending && Before(states[m].runs[k], states[m].runs[j])
    requires forall i | m <= i < n && events[i].action.Claim? :: k !in events[i].action.locked
    ensures j in states[n].runs && states[n].runs[j] == states[m].runs[j]
    decreases n
  {
    if m < n {
      QueueIsBlocked(states, events, m, n - 1, k, j);
      var s, e := states[n - 1], events[n - 1];
      assert Next(s, e, states[n]);
      if e.action.Claim? {
        ClaimsPassBy(states, events, m, n - 1, k);
        if e.action.id == j {
          BeforeAsymmetric(states[m].runs[k], states[m].runs[j]);
        }
      }
      hide IsRun, Acts, Before;
      RunChange(s.(clock := e.now), e.action, states[n], j);
    }
  }
}
