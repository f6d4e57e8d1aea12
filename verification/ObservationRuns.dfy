/** Guarantees of the observation store over every run: no lost wake, no stranded namespace, monotone observations. */
module ObservationRuns {
  import opened Identifiers
  import opened ObservationStore

  datatype Event = Runtime(op: Op, now: Time) | Put(value: Observation) | Idle

  datatype State = State(values: Observations, runtimes: Runtimes, clock: Time)

  /** Any caller's next call. The instants presented to runtime operations never decrease. */
  ghost predicate Step(s: State, e: Event, s': State) {
    match e
    case Runtime(op, now) => s.clock <= now && s' == s.(runtimes := After(s.runtimes, op, now), clock := now)
    case Put(value) => ValidObservation(value) && s' == s.(values := AfterPut(s.values, value))
    case Idle => s' == s
  }

  ghost predicate IsRun(states: seq<State>, events: seq<Event>) {
    && |states| == |events| + 1 && states[0].values == map[] && states[0].runtimes == map[]
    && states[0].clock > ZERO_TIME
    && forall i | 0 <= i < |events| :: Step(states[i], events[i], states[i + 1])
  }

  // How `nextPollAt` encodes a wake.

  /** While a lease is recorded, the next poll is its deadline, or an instant already past. */
  predicate Encoded(r: ObservationStore.Runtime, clock: Time) {
    r.lease.owner != "" ==> r.nextPollAt == r.lease.until || r.nextPollAt <= clock
  }

  ghost predicate AllEncoded(rs: Runtimes, clock: Time) {
    forall n | n in rs :: Encoded(rs[n], clock)
  }

  lemma StepEncoded(s: State, e: Event, s': State)
    requires Step(s, e, s') && AllEncoded(s.runtimes, s.clock)
    ensures AllEncoded(s'.runtimes, s'.clock)
  {
    hide IsKubeName, IsOwner, ValidObservation, PutOutcome, IsFailureCode, Printable;
  }

  lemma {:induction false} RunEncoded(states: seq<State>, events: seq<Event>, n: nat)
    requires IsRun(states, events) && n < |states|
    ensures AllEncoded(states[n].runtimes, states[n].clock) && states[n].clock > ZERO_TIME
  {
    if n > 0 {
      RunEncoded(states, events, n - 1);
      assert Step(states[n - 1], events[n - 1], states[n]);
      StepEncoded(states[n - 1], events[n - 1], states[n]);
    }
  }

  // The scheduler the store implements: idle until due, or working with an explicit wake flag.

  datatype Schedule = Waiting(due: Time) | Working(until: Time, woken: bool)

  /** Reading the runtime of a namespace at an instant; a deadline that has passed counts as a wake. */
  function View(r: ObservationStore.Runtime, now: Time): Schedule {
    if r.lease.owner == "" then Waiting(r.nextPollAt) else Working(r.lease.until, r.nextPollAt <= now)
  }

  predicate Grantable(v: Schedule, now: Time) {
    match v case Waiting(due) => due <= now case Working(until, _) => until <= now
  }

  function Scheduled(v: Schedule, op: Op, now: Time): Schedule {
    match op
    case Claim(_, _, duration) => Working(now + duration, false)
    case Heartbeat(_, duration) => if v.Working? then Working(now + duration, v.woken) else v
    case Finish(_, report) => Waiting(if v.Working? && v.woken then now else report.nextPollAt)
    case Wake(_) =>
      (match v
       case Waiting(due) => Waiting(if due > now then now else due)
       case Working(until, _) => Working(until, true))
  }

  /** Every accepted operation acts on the encoding as the scheduler says. */
  lemma RefinesScheduler(rs: Runtimes, op: Op, clock: Time, now: Time)
    requires AllEncoded(rs, clock) && clock <= now && Perform(rs, op, now).Ok? && Target(op) in rs
    ensures View(Perform(rs, op, now).value, now) == Scheduled(View(rs[Target(op)], now), op, now)
    ensures op.Claim? ==> Grantable(View(rs[Target(op)], now), now)
  {
    hide IsKubeName, IsFailureCode, Printable;
  }

  /** A well-formed claim is granted exactly when the scheduler allows it; an unknown namespace is granted at once. */
  lemma ClaimGranted(rs: Runtimes, clock: Time, namespace: string, owner: string, now: Time, duration: int)
    requires AllEncoded(rs, clock) && clock <= now && ClaimArguments(namespace, owner, now, duration)
    ensures ClaimOutcome(rs, namespace, owner, now, duration).Ok? <==>
              namespace in rs ==> Grantable(View(rs[namespace], now), now)
  {
    hide IsKubeName, IsOwner;
  }

  // No lost wake.

  /** The next poll of a woken namespace is not in the future. */
  predicate Due(s: State, namespace: string) {
    namespace in s.runtimes && s.runtimes[namespace].nextPollAt <= s.clock
  }

  ghost predicate Grants(s: State, e: Event, namespace: string) {
    e.Runtime? && e.op.Claim? && e.op.namespace == namespace && Perform(s.runtimes, e.op, e.now).Ok?
  }

  lemma WakeMakesDue(s: State, namespace: string, now: Time, s': State)
    requires Step(s, Event.Runtime(Wake(namespace), now), s') && IsKubeName(namespace) && now != ZERO_TIME
    ensures Due(s', namespace)
  {
  }

  lemma StaysDue(s: State, e: Event, s': State, namespace: string)
    requires Step(s, e, s') && AllEncoded(s.runtimes, s.clock) && Due(s, namespace) && !Grants(s, e, namespace)
    ensures Due(s', namespace)
  {
    hide IsKubeName, IsOwner, ValidObservation, PutOutcome, IsFailureCode, Printable;
  }

  /**
   After a wake, and until the next grant, a claim is granted as soon as no unexpired lease is held, whatever
   heartbeats, finishes and further wakes intervene.
   */
  lemma {:induction false} NoLostWake(states: seq<State>, events: seq<Event>, m: nat, n: nat, namespace: string,
                                      owner: string, now: Time, duration: int)
    requires IsRun(states, events) && m < n < |states|
    requires events[m].Runtime? && events[m].op == Wake(namespace) && IsKubeName(namespace)
    requires forall i | m < i < n :: !Grants(states[i], events[i], namespace)
    requires ClaimArguments(namespace, owner, now, duration) && now >= states[n].clock
    ensures namespace in states[n].runtimes
    ensures !Held(states[n].runtimes[namespace], now) ==>
              ClaimOutcome(states[n].runtimes, namespace, owner, now, duration).Ok?
  {
    hide IsKubeName, IsOwner;
    RunDue(states, events, m, n, namespace);
  }

  lemma {:induction false} RunDue(states: seq<State>, events: seq<Event>, m: nat, n: nat, namespace: string)
    requires IsRun(states, events) && m < n < |states|
    requires events[m].Runtime? && events[m].op == Wake(namespace) && IsKubeName(namespace)
    requires forall i | m < i < n :: !Grants(states[i], events[i], namespace)
    ensures Due(states[n], namespace)
    decreases n
  {
    hide Due, IsKubeName, Perform, After, AllEncoded;
    RunEncoded(states, events, n - 1);
    assert Step(states[n - 1], events[n - 1], states[n]);
    if m + 1 < n {
      RunDue(states, events, m, n - 1, namespace);
      StaysDue(states[n - 1], events[n - 1], states[n], namespace);
    } else {
      WakeMakesDue(states[m], namespace, events[m].now, states[n]);
    }
  }

  /** Whoever crashes, a namespace can be claimed again once its lease has expired. */
  lemma NeverStranded(states: seq<State>, events: seq<Event>, n: nat, namespace: string, owner: string, now: Time,
      duration: int)
    requires IsRun(states, events) && n < |states| && namespace in states[n].runtimes
    requires states[n].runtimes[namespace].lease.owner != ""
    requires ClaimArguments(namespace, owner, now, duration) && now >= states[n].clock
    ensures ClaimOutcome(states[n].runtimes, namespace, owner, now, duration).Ok? <==>
              states[n].runtimes[namespace].lease.until <= now
  {
    RunEncoded(states, events, n);
    ClaimGranted(states[n].runtimes, states[n].clock, namespace, owner, now, duration);
  }

  // Fencing.

  lemma StepEpoch(s: State, e: Event, s': State, namespace: string)
    requires Step(s, e, s') && namespace in s.runtimes
    ensures namespace in s'.runtimes
    ensures s'.runtimes[namespace].lease.epoch
            == s.runtimes[namespace].lease.epoch + if Grants(s, e, namespace) then 1 else 0
  {
    hide IsKubeName, IsOwner, ValidObservation, PutOutcome, IsFailureCode, Printable;
  }

  lemma {:induction false} EpochsGrow(states: seq<State>, events: seq<Event>, m: nat, n: nat, namespace: string)
    requires IsRun(states, events) && m <= n < |states| && namespace in states[m].runtimes
    ensures namespace in states[n].runtimes
    ensures states[m].runtimes[namespace].lease.epoch <= states[n].runtimes[namespace].lease.epoch
    decreases n
  {
    if m < n {
      EpochsGrow(states, events, m, n - 1, namespace);
      assert Step(states[n - 1], events[n - 1], states[n]);
      StepEpoch(states[n - 1], events[n - 1], states[n], namespace);
    }
  }

  /** Once a namespace is granted anew, leases from before can neither extend, publish nor finish anything. */
  lemma StaleLeaseIsFenced(states: seq<State>, events: seq<Event>, m: nat, n: nat, lease: Lease, acceptable: bool,
      now: Time)
    requires IsRun(states, events) && m <= n < |states| && lease.namespace in states[m].runtimes
    requires lease.epoch < states[m].runtimes[lease.namespace].lease.epoch
    ensures Fenced(states[n].runtimes, lease, acceptable, now).Err?
  {
    EpochsGrow(states, events, m, n, lease.namespace);
  }

  // Observations.

  /** How the stored observation of a deployment may change. */
  predicate Progresses(a: Observation, b: Observation) {
    && a.observedAt <= b.observedAt && a.updatedAt <= b.updatedAt
    && a.deploymentID == b.deploymentID && SameIdentity(a, b)
    && (a.observedAt == b.observedAt && a.updatedAt == b.updatedAt ==> a == b)
  }

  predicate Keyed(values: Observations) {
    forall d | d in values :: values[d].deploymentID == d
  }

  lemma {:induction false} RunKeyed(states: seq<State>, events: seq<Event>, n: nat)
    requires IsRun(states, events) && n < |states|
    ensures Keyed(states[n].values)
  {
    if n > 0 {
      RunKeyed(states, events, n - 1);
      assert Step(states[n - 1], events[n - 1], states[n]);
    }
  }

  /** Stored times never decrease and an Application keeps its identity, its UID apart, for the whole run. */
  lemma {:induction false} ObservationsProgress(states: seq<State>, events: seq<Event>, m: nat, n: nat, d: string)
    requires IsRun(states, events) && m <= n < |states| && d in states[m].values
    ensures d in states[n].values && Progresses(states[m].values[d], states[n].values[d])
    decreases n
  {
    RunKeyed(states, events, m);
    if m < n {
      ObservationsProgress(states, events, m, n - 1, d);
      assert Step(states[n - 1], events[n - 1], states[n]);
    }
  }

  /** A UID changes only when a replacement is stored that is synced at the desired revision. */
  lemma {:induction false} UidRollover(states: seq<State>, events: seq<Event>, m: nat, n: nat, d: string)
    requires IsRun(states, events) && m <= n < |states| && d in states[m].values && d in states[n].values
    requires states[m].values[d].argoUID != states[n].values[d].argoUID
    ensures exists i :: && m < i <= n && d in states[i].values && d in states[i - 1].values
                        && states[i - 1].values[d].argoUID != states[i].values[d].argoUID
                        && states[i].values[d].argoUID == states[n].values[d].argoUID
                        && AtDesiredRevision(states[i].values[d])
    decreases n
  {
    assert m < n;
    ObservationsProgress(states, events, m, n - 1, d);
    assert Step(states[n - 1], events[n - 1], states[n]);
    if states[n - 1].values[d].argoUID == states[n].values[d].argoUID {
      UidRollover(states, events, m, n - 1, d);
    }
  }
}
