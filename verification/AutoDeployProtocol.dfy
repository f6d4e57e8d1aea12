/**
 Controllers over the run table and the deployment pipeline: bounded claims, fencing and at most one operation per run.
 */
module AutoDeployProtocol {
  import opened Identifiers
  import opened AutoDeployRuns

  /**
   Where a controller is with the run it claimed: `key` names the submission, `receipt` is what the pipeline answered.
   */
  datatype Phase = Checking | Submitting | Received(receipt: Receipt)

  datatype Controller = Controller(lease: Lease, key: string, phase: Phase)

  /** The current revision of a policy. Revisions are numbered from one and never edited. */
  datatype Policy = Policy(revision: nat, enabled: bool)

  /** `operations` is what the pipeline persisted, by idempotency key. */
  datatype State = State(
    policies: map<string, Policy>, runs: Runs, operations: map<string, Receipt>, controllers: map<nat, Controller>,
    clock: Time)

  datatype Label =
    | CreatePolicy(policyID: string, enabled: bool)
    | Revise(policyID: string, enabled: bool)
    | Trigger(run: Run)
    | Claim(c: nat, id: RunID, owner: string, duration: int, locked: set<RunID>)
    | Beat(c: nat, duration: int)
    | BeginSubmit(c: nat, duration: int)
    | Submit(c: nat, receipt: Receipt)
    | Fence(c: nat, duration: int)
    | Complete(c: nat)
    | GiveUp(c: nat, op: Op)
    | Crash(c: nat)

  function To(s: State, c: nat, controller: Controller): State {
    s.(controllers := s.controllers[c := controller])
  }

  function Gone(s: State, c: nat): State {
    s.(controllers := s.controllers - {c})
  }

  /** The run still belongs to its policy's current, enabled revision; checked inside every claim. */
  predicate Workable(policies: map<string, Policy>, r: Run) {
    r.id.policyID in policies && policies[r.id.policyID] == Policy(r.policyRevision, true)
  }

  /** A finished build enqueues runs for the current revisions of enabled policies. */
  ghost predicate NewRun(r: Run) {
    && r.availableAt == r.createdAt == r.updatedAt
    && IsUuid(r.id.attemptID) && IsUuid(r.id.policyID) && r.state == Pending && r.attempts == 0 && r.leaseOwner == ""
    && r.leaseEpoch == 0
    && r.operationID == "" && r.deploymentID == "" && r.completedAt == None
  }

  /** A heartbeat that keeps the controller going, or loses it. */
  ghost predicate Heartbeats(s: State, c: nat, duration: int, phase: Phase, s': State)
    requires c in s.controllers
  {
    var controller := s.controllers[c];
    var r := Perform(s.runs, controller.lease, Heartbeat(duration), s.clock);
    if r.Ok? then
      s' == To(s, c, controller.(lease := controller.lease.(until := r.value.leaseUntil), phase := phase)).(
              runs := After(s.runs, controller.lease, r))
    else s' == Gone(s, c)
  }

  /** The pipeline answers a known key with what it stored before; a new key creates an operation. */
  ghost predicate Submits(s: State, c: nat, receipt: Receipt, s': State)
    requires c in s.controllers
  {
    var controller := s.controllers[c];
    && (controller.key in s.operations ==> receipt == s.operations[controller.key])
    && s' == To(s, c, controller.(phase := Received(receipt))).(operations := s.operations[controller.key := receipt])
  }

  ghost predicate Acts(s: State, l: Label, s': State) {
    match l
    case CreatePolicy(id, enabled) => id !in s.policies && s' == s.(policies := s.policies[id := Policy(1, enabled)])
    case Revise(id, enabled) =>
      && id in s.policies
      && s' == s.(policies := s.policies[id := Policy(s.policies[id].revision + 1, enabled)])
    case Trigger(r) => NewRun(r) && Workable(s.policies, r) && r.id !in s.runs && s' == s.(runs := s.runs[r.id := r])
    case Claim(c, id, owner, duration, locked) =>
      && c !in s.controllers && ClaimArguments(owner, s.clock, duration)
      && FirstClaimable(s.runs, locked, id, s.clock) && Workable(s.policies, s.runs[id])
      && var r := Claimed(s.runs[id], owner, s.clock, duration);
         s' == To(s, c, Controller(LeaseOf(r), KeyOf(r), Checking)).(runs := s.runs[id := r])
    case Beat(c, duration) => c in s.controllers && Heartbeats(s, c, duration, s.controllers[c].phase, s')
    case BeginSubmit(c, duration) =>
      c in s.controllers && s.controllers[c].phase.Checking? && Heartbeats(s, c, duration, Submitting, s')
    case Submit(c, receipt) => c in s.controllers && s.controllers[c].phase.Submitting? && Submits(s, c, receipt, s')
    case Fence(c, duration) =>
      c in s.controllers && s.controllers[c].phase.Received? && Heartbeats(s, c, duration, s.controllers[c].phase, s')
    case Complete(c) =>
      && c in s.controllers && s.controllers[c].phase.Received?
      && var controller := s.controllers[c];
         s' == Gone(s, c).(runs := After(s.runs, controller.lease,
                 Perform(s.runs, controller.lease, Op.Complete(controller.phase.receipt), s.clock)))
    case GiveUp(c, op) =>
      && c in s.controllers && (op.Fail? || op.Retry?)
      && s' == Gone(s, c).(runs := After(s.runs, s.controllers[c].lease,
         Perform(s.runs, s.controllers[c].lease, op, s.clock)))
    case Crash(c) => c in s.controllers && s' == Gone(s, c)
  }

  datatype Event = Event(action: Label, now: Time)

  ghost predicate Next(s: State, e: Event, s': State) {
    s.clock <= e.now && Acts(s.(clock := e.now), e.action, s')
  }

  ghost predicate IsRun(states: seq<State>, events: seq<Event>) {
    && |states| == |events| + 1
    && states[0].policies == map[] && states[0].runs == map[] && states[0].operations == map[]
    && states[0].controllers == map[] && states[0].clock > ZERO_TIME
    && forall i | 0 <= i < |events| :: Next(states[i], events[i], states[i + 1])
  }

  // One step, seen from one run.

  datatype Change = Same | ClaimedBy(owner: string, duration: int) | UpdatedBy(lease: Lease, op: Op)

  /** The run of a step's controller, if the step presents its lease. */
  ghost function ChangeOf(s: State, l: Label, k: RunID): Change {
    match l
    case Claim(_, id, owner, duration, _) => if id == k then ClaimedBy(owner, duration) else Same
    case Beat(c, duration) => Presented(s, c, k, Heartbeat(duration))
    case BeginSubmit(c, duration) => Presented(s, c, k, Heartbeat(duration))
    case Fence(c, duration) => Presented(s, c, k, Heartbeat(duration))
    case Complete(c) =>
      if c in s.controllers && s.controllers[c].phase.Received? then
        Presented(s, c, k, Op.Complete(s.controllers[c].phase.receipt)) else Same
    case GiveUp(c, op) => Presented(s, c, k, op)
    case _ => Same
  }

  ghost function Presented(s: State, c: nat, k: RunID, op: Op): Change {
    if c in s.controllers && s.controllers[c].lease.id == k && Perform(s.runs, s.controllers[c].lease, op, s.clock).Ok?
    then UpdatedBy(s.controllers[c].lease, op) else Same
  }

  ghost predicate Changed(r: Run, change: Change, now: Time, r': Run) {
    match change
    case Same => r' == r
    case ClaimedBy(owner, duration) => Claimable(r, now) && r' == Claimed(r, owner, now, duration)
    case UpdatedBy(lease, op) =>
      Acceptable(lease, op, now) && Guarded(r, lease, now) && r' == Updated(r, lease, op, now)
  }

  lemma RunChange(s: State, l: Label, s': State, k: RunID)
    requires Acts(s, l, s') && k in s.runs
    ensures k in s'.runs && Changed(s.runs[k], ChangeOf(s, l, k), s.clock, s'.runs[k]) && s'.clock == s.clock
  {
    hide Acceptable, Claimable, Updated, Claimed;
  }

  // Bounded claims.

  ghost predicate ClaimsRun(s: State, e: Event, k: RunID) {
    e.action.Claim? && e.action.id == k
  }

  /** How often the first `n` events claimed a run. */
  ghost function Claims(states: seq<State>, events: seq<Event>, k: RunID, n: nat): nat
    requires n <= |events| < |states|
  {
    if n == 0 then 0 else Claims(states, events, k, n - 1) + if ClaimsRun(states[n - 1], events[n - 1], k) then 1 else 0
  }

  lemma {:induction false} ClaimsAreCounted(states: seq<State>, events: seq<Event>, k: RunID, n: nat)
    requires IsRun(states, events) && n <= |events|
    ensures if k in states[n].runs then states[n].runs[k].attempts == Claims(states, events, k, n) <= MAX_ATTEMPTS
            else Claims(states, events, k, n) == 0
  {
    if n > 0 {
      ClaimsAreCounted(states, events, k, n - 1);
      var s, e := states[n - 1], events[n - 1];
      assert Next(s, e, states[n]);
      if k in s.runs {
        hide Acts, IsRun;
        RunChange(s.(clock := e.now), e.action, states[n], k);
      } else {
        NotYet(s.(clock := e.now), e.action, states[n], k);
      }
    }
  }

  lemma NotYet(s: State, l: Label, s': State, k: RunID)
    requires Acts(s, l, s') && k !in s.runs
    ensures !(l.Claim? && l.id == k)
    ensures k in s'.runs ==> s'.runs[k].attempts == 0
  {
    hide Acceptable, Claimable, Updated, Claimed;
  }

  /** No run is claimed more than the maximum number of times. */
  lemma BoundedClaims(states: seq<State>, events: seq<Event>, k: RunID)
    requires IsRun(states, events)
    ensures Claims(states, events, k, |events|) <= MAX_ATTEMPTS
  {
    ClaimsAreCounted(states, events, k, |events|);
  }

  // Absorption and fencing.

  predicate Terminal(state: RunState) {
    state == Submitted || state == Failed
  }

  /** What a run keeps from one state of a run of the system to any later one. */
  ghost predicate Advances(r: Run, r': Run) {
    && r'.id == r.id && r'.policyRevision == r.policyRevision && r.leaseEpoch <= r'.leaseEpoch
    && r.attempts <= r'.attempts
    && (Terminal(r.state) ==> r' == r)
  }

  lemma StepAdvances(s: State, l: Label, s': State, k: RunID)
    requires Acts(s, l, s') && k in s.runs
    ensures k in s'.runs && Advances(s.runs[k], s'.runs[k])
  {
    RunChange(s, l, s', k);
    hide Acts, ChangeOf, Acceptable;
  }

  lemma {:induction false} RunsAdvance(states: seq<State>, events: seq<Event>, m: nat, n: nat, k: RunID)
    requires IsRun(states, events) && m <= n < |states| && k in states[m].runs
    ensures k in states[n].runs && Advances(states[m].runs[k], states[n].runs[k])
    decreases n
  {
    hide Acts;
    if m < n {
      RunsAdvance(states, events, m, n - 1, k);
      var e := events[n - 1];
      assert Next(states[n - 1], e, states[n]);
      StepAdvances(states[n - 1].(clock := e.now), e.action, states[n], k);
    }
  }

  /** A submitted or failed run never changes again. */
  lemma TerminalAbsorbs(states: seq<State>, events: seq<Event>, m: nat, n: nat, k: RunID)
    requires IsRun(states, events) && m <= n < |states| && k in states[m].runs && Terminal(states[m].runs[k].state)
    ensures k in states[n].runs && states[n].runs[k] == states[m].runs[k]
  {
    RunsAdvance(states, events, m, n, k);
  }

  /** Once a run was claimed again, an older lease can never change it. */
  lemma StaleLeaseIsFenced(states: seq<State>, events: seq<Event>, m: nat, n: nat, lease: Lease, op: Op, now: Time)
    requires IsRun(states, events) && m <= n < |states| && lease.id in states[m].runs
    requires lease.epoch < states[m].runs[lease.id].leaseEpoch
    ensures Perform(states[n].runs, lease, op, now).Err?
  {
    RunsAdvance(states, events, m, n, lease.id);
  }

  // At most one operation per run.

  predicate Shape(r: Run) {
    && IsUuid(r.id.attemptID) && IsUuid(r.id.policyID)
    && (r.state == Submitted ==> r.completedAt.Some? && r.failureCode == "")
    && (r.state == Failed ==> r.completedAt.Some? && r.failureCode != "")
    && (r.state != Submitted ==> r.operationID == "" && r.deploymentID == "")
    && (!Terminal(r.state) ==> r.completedAt == None)
    && r.leaseEpoch >= 0 && 0 <= r.attempts <= MAX_ATTEMPTS && (r.state == Pending ==> r.attempts < MAX_ATTEMPTS)
  }

  ghost predicate Inv(s: State) {
    && s.clock > ZERO_TIME
    && (forall k | k in s.runs ::
       s.runs[k].id == k && Shape(s.runs[k]) && Records(s, s.runs[k]) && Revised(s.policies, s.runs[k]))
    && (forall c | c in s.controllers :: ControllerInv(s, s.controllers[c]))
    && forall key | key in s.operations :: exists k :: k in s.runs && KeyOf(s.runs[k]) == key
  }

  /** A run's revision is its policy's current and enabled one, or an older one. */
  predicate Revised(policies: map<string, Policy>, r: Run) {
    && r.id.policyID in policies && r.policyRevision <= policies[r.id.policyID].revision
    && (r.policyRevision == policies[r.id.policyID].revision ==> policies[r.id.policyID].enabled)
  }

  /** A submitted run records the pipeline's operation for its key. */
  ghost predicate Records(s: State, r: Run) {
    r.state == Submitted ==>
      KeyOf(r) in s.operations && s.operations[KeyOf(r)] == Receipt(r.operationID, r.deploymentID)
  }

  ghost predicate ControllerInv(s: State, c: Controller) {
    && c.lease.id in s.runs && c.lease.Valid() && c.key == KeyOf(s.runs[c.lease.id])
    && (c.phase.Received? ==> c.key in s.operations && s.operations[c.key] == c.phase.receipt)
  }

  /** The pipeline never forgets or replaces an operation, and runs keep their keys. */
  ghost predicate Grown(s: State, s': State) {
    && (forall key | key in s.operations :: key in s'.operations && s'.operations[key] == s.operations[key])
    && (forall k | k in s.runs :: k in s'.runs && KeyOf(s'.runs[k]) == KeyOf(s.runs[k]))
    && (forall p | p in s.policies ::
          p in s'.policies && (s'.policies[p] == s.policies[p] || s'.policies[p].revision > s.policies[p].revision))
    && s'.clock == s.clock
  }

  lemma StepGrown(s: State, l: Label, s': State)
    requires Acts(s, l, s')
    ensures Grown(s, s')
  {
    hide KeyOf;
    forall k | k in s.runs
      ensures k in s'.runs && KeyOf(s'.runs[k]) == KeyOf(s.runs[k])
    {
      StepAdvances(s, l, s', k);
      SameKey(s.runs[k], s'.runs[k]);
    }
    hide Acceptable, Claimable, Updated, Claimed, Perform;
  }

  lemma SameKey(r: Run, r': Run)
    requires r'.id == r.id && r'.policyRevision == r.policyRevision
    ensures KeyOf(r') == KeyOf(r)
  {
  }

  lemma ControllerGrown(s: State, s': State, c: Controller)
    requires ControllerInv(s, c) && Grown(s, s')
    ensures ControllerInv(s', c)
  {
    hide KeyOf;
  }

  lemma BeatDeadline(rs: Runs, lease: Lease, duration: int, now: Time)
    ensures Perform(rs, lease, Heartbeat(duration), now).Ok? ==>
            Perform(rs, lease, Heartbeat(duration), now).value.leaseUntil > now
  {
  }

  lemma ClaimController(s: State, l: Label, s': State)
    requires Acts(s, l, s') && Inv(s) && l.Claim?
    ensures ControllerInv(s', s'.controllers[l.c])
  {
    hide KeyOf, Records, IsUuid, Revised, ControllerInv, Before, Claimable;
    var r := s.runs[l.id];
    var claimed := Claimed(r, l.owner, s.clock, l.duration);
    SameKey(r, claimed);
    assert Shape(r) && LeaseOf(claimed).Valid();
    NewController(s', Controller(LeaseOf(claimed), KeyOf(claimed), Checking));
  }

  lemma NewController(s: State, c: Controller)
    requires c.phase.Checking? && c.lease.Valid() && c.lease.id in s.runs && c.key == KeyOf(s.runs[c.lease.id])
    ensures ControllerInv(s, c)
  {
  }

  lemma BeatController(s: State, l: Label, s': State, c: nat)
    requires Acts(s, l, s') && Inv(s) && Grown(s, s') && c in s'.controllers && (l.Beat? || l.BeginSubmit? || l.Fence?)
    ensures ControllerInv(s', s'.controllers[c])
  {
    hide KeyOf, Perform, Records, FirstClaimable, IsUuid, Revised, Claimed, Shape, NewRun, Workable, After;
    assert c in s.controllers && ControllerInv(s, s.controllers[c]);
    ControllerGrown(s, s', s.controllers[c]);
    BeatDeadline(s.runs, s.controllers[l.c].lease, l.duration, s.clock);
  }

  lemma StepController(s: State, l: Label, s': State, c: nat)
    requires Acts(s, l, s') && Inv(s) && Grown(s, s') && c in s'.controllers
    ensures ControllerInv(s', s'.controllers[c])
  {
    hide KeyOf, Perform, Records, FirstClaimable, IsUuid, Revised, Claimed, Shape, NewRun, Workable, After;
    if l.Claim? && l.c == c {
      ClaimController(s, l, s');
    } else if l.Beat? || l.BeginSubmit? || l.Fence? {
      BeatController(s, l, s', c);
    } else {
      assert c in s.controllers && ControllerInv(s, s.controllers[c]);
      ControllerGrown(s, s', s.controllers[c]);
    }
  }

  lemma StepControllers(s: State, l: Label, s': State)
    requires Acts(s, l, s') && Inv(s) && Grown(s, s')
    ensures forall c | c in s'.controllers :: ControllerInv(s', s'.controllers[c])
  {
    hide Acts, Inv, Grown, ControllerInv;
    forall c | c in s'.controllers
      ensures ControllerInv(s', s'.controllers[c])
    {
      StepController(s, l, s', c);
    }
  }

  /** A run is completed only with the receipt the pipeline gave for its key. */
  lemma CompletionReceipt(s: State, l: Label, s': State, k: RunID)
    requires Acts(s, l, s') && Inv(s) && k in s.runs
    ensures var change := ChangeOf(s, l, k);
            change.UpdatedBy? && change.op.Complete? ==>
              KeyOf(s.runs[k]) in s.operations && s.operations[KeyOf(s.runs[k])] == change.op.receipt
  {
    hide KeyOf, Perform, Shape, Records, Claimable, Claimed, Updated;
    if l.Complete? {
      assert ControllerInv(s, s.controllers[l.c]);
    }
  }

  lemma ChangeKeepsShape(r: Run, change: Change, now: Time, r': Run)
    requires Changed(r, change, now, r') && Shape(r)
    ensures Shape(r')
    ensures r'.state == Submitted && r.state != Submitted ==>
              change.UpdatedBy? && change.op.Complete? && change.op.receipt == Receipt(r'.operationID, r'.deploymentID)
    ensures r.state == Submitted ==> r' == r
  {
    hide IsUuid;
  }

  lemma StepRun(s: State, l: Label, s': State, k: RunID)
    requires Acts(s, l, s') && Inv(s) && Grown(s, s') && k in s.runs
    ensures k in s'.runs && s'.runs[k].id == k && Shape(s'.runs[k]) && Records(s', s'.runs[k])
            && Revised(s'.policies, s'.runs[k])
  {
    hide Acts, KeyOf, Shape, ChangeOf, Changed, Perform, ControllerInv;
    StepAdvances(s, l, s', k);
    RunChange(s, l, s', k);
    var change := ChangeOf(s, l, k);
    CompletionReceipt(s, l, s', k);
    SameKeyAfter(s.runs[k], change, s.clock, s'.runs[k]);
    ChangeKeepsShape(s.runs[k], change, s.clock, s'.runs[k]);
    assert Records(s, s.runs[k]);
  }

  lemma SameKeyAfter(r: Run, change: Change, now: Time, r': Run)
    requires Changed(r, change, now, r')
    ensures KeyOf(r') == KeyOf(r) && r'.id == r.id
  {
    hide Acceptable, Claimable;
  }

  lemma StepOperations(s: State, l: Label, s': State)
    requires Acts(s, l, s') && Inv(s) && Grown(s, s')
    ensures forall key | key in s'.operations :: exists k :: k in s'.runs && KeyOf(s'.runs[k]) == key
  {
    hide KeyOf, Acceptable, Claimable, Updated, Perform, Shape, Records, Claimed;
    forall key | key in s'.operations
      ensures exists k :: k in s'.runs && KeyOf(s'.runs[k]) == key
    {
      if key in s.operations {
        var k :| k in s.runs && KeyOf(s.runs[k]) == key;
        assert k in s'.runs && KeyOf(s'.runs[k]) == key;
      } else {
        var controller := s.controllers[l.c];
        assert KeyOf(s'.runs[controller.lease.id]) == key;
      }
    }
  }

  lemma NewRunKept(s: State, l: Label, s': State, k: RunID)
    requires Acts(s, l, s') && k !in s.runs && k in s'.runs
    ensures s'.runs[k].id == k && Shape(s'.runs[k]) && s'.runs[k].state == Pending && Revised(s'.policies, s'.runs[k])
  {
    hide Acceptable, Claimable, Updated, Claimed, KeyOf, IsUuid;
  }

  lemma StepRuns(s: State, l: Label, s': State)
    requires Acts(s, l, s') && Inv(s) && Grown(s, s')
    ensures forall k | k in s'.runs ::
            s'.runs[k].id == k && Shape(s'.runs[k]) && Records(s', s'.runs[k]) && Revised(s'.policies, s'.runs[k])
  {
    hide Acts, Inv, Shape, KeyOf, Grown;
    forall k | k in s'.runs
      ensures s'.runs[k].id == k && Shape(s'.runs[k]) && Records(s', s'.runs[k]) && Revised(s'.policies, s'.runs[k])
    {
      if k in s.runs {
        StepRun(s, l, s', k);
      } else {
        NewRunKept(s, l, s', k);
      }
    }
  }

  lemma StepInv(s: State, l: Label, s': State)
    requires Acts(s, l, s') && Inv(s)
    ensures Inv(s')
  {
    hide Acts, Shape, KeyOf, ControllerInv, Records, Revised;
    StepGrown(s, l, s');
    StepControllers(s, l, s');
    StepOperations(s, l, s');
    StepRuns(s, l, s');
  }

  lemma ClockInv(s: State, now: Time)
    requires Inv(s) && s.clock <= now
    ensures Inv(s.(clock := now))
  {
    hide Shape, KeyOf, Revised;
    var s' := s.(clock := now);
    forall k | k in s.runs
      ensures Records(s', s.runs[k])
    {
      assert Records(s, s.runs[k]);
    }
    forall c | c in s.controllers
      ensures ControllerInv(s', s.controllers[c])
    {
      assert ControllerInv(s, s.controllers[c]);
    }
  }

  lemma {:induction false} RunInv(states: seq<State>, events: seq<Event>, n: nat)
    requires IsRun(states, events) && n < |states|
    ensures Inv(states[n])
  {
    if n > 0 {
      hide Acts, Inv;
      RunInv(states, events, n - 1);
      var s, e := states[n - 1], events[n - 1];
      assert Next(s, e, states[n]);
      ClockInv(s, e.now);
      StepInv(s.(clock := e.now), e.action, states[n]);
    }
  }

  /**
   Every operation the controllers caused belongs to exactly one run, and a submitted run records precisely the
   operation stored under its key.
   */
  lemma EffectivelyOnce(states: seq<State>, events: seq<Event>, n: nat)
    requires IsRun(states, events) && n < |states|
    ensures forall key | key in states[n].operations ::
            exists k :: k in states[n].runs && KeyOf(states[n].runs[k]) == key
    ensures forall j, k | j in states[n].runs && k in states[n].runs
            && KeyOf(states[n].runs[j]) == KeyOf(states[n].runs[k]) :: j == k
    ensures forall k | k in states[n].runs && states[n].runs[k].state == Submitted ::
              var r := states[n].runs[k];
              KeyOf(r) in states[n].operations
                && states[n].operations[KeyOf(r)] == Receipt(r.operationID, r.deploymentID)
  {
    RunInv(states, events, n);
    hide IsRun;
    var runs := states[n].runs;
    forall j, k | j in runs && k in runs && KeyOf(runs[j]) == KeyOf(runs[k])
      ensures j == k
    {
      KeyInjective(runs[j].id.policyID, runs[j].policyRevision, runs[j].id.attemptID,
                   runs[k].id.policyID, runs[k].policyRevision, runs[k].id.attemptID);
    }
  }

  /** Once an operation is stored for a key it stays: retries and takeovers only replay it. */
  lemma {:induction false} OperationsAreStable(states: seq<State>, events: seq<Event>, m: nat, n: nat, key: string)
    requires IsRun(states, events) && m <= n < |states| && key in states[m].operations
    ensures key in states[n].operations && states[n].operations[key] == states[m].operations[key]
    decreases n
  {
    if m < n {
      OperationsAreStable(states, events, m, n - 1, key);
      var s, e := states[n - 1], events[n - 1];
      assert Next(s, e, states[n]);
      hide Acts, IsRun;
      StepGrown(s.(clock := e.now), e.action, states[n]);
    }
  }
}
