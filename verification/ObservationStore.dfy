/** Observed Argo state and the namespace leases that schedule its polling. */
module ObservationStore {
  import opened Identifiers
  import opened Naming

  datatype Error = Invalid | NotFound | Conflict | LeaseHeld | LeaseLost
  datatype Outcome<+T> = Ok(value: T) | Err(error: Error)

  // Observations.

  datatype Sync = SyncUnknown | Synced | OutOfSync
  datatype Health = HealthUnknown | Progressing | Healthy | Degraded | Suspended | Missing
  datatype OperationPhase = NoOperation | Running | Succeeded | Failed | Errored | Terminating

  datatype ResourceIdentity = ResourceIdentity(
    group: string, version: string, kind: string, namespace: string, name: string, uid: string, health: Health)

  datatype Observation = Observation(
    deploymentID: string, applicationID: string, projectID: string, environmentID: string,
    argoUID: string, argoNamespace: string, argoName: string, destinationNamespace: string,
    desiredRevision: string, observedRevision: string, sync: Sync, health: Health, phase: OperationPhase,
    message: string, resources: seq<ResourceIdentity>, observedAt: Time, updatedAt: Time)

  predicate IsAlphanumeric(c: char) {
    IsLowerLetter(c) || IsUpperLetter(c) || IsDigit(c)
  }

  predicate ValidGroup(group: string) {
    && 1 <= |group| <= 253
    && (forall i | 0 <= i < |group| ::
          IsLowerLetter(group[i]) || IsDigit(group[i]) || group[i] == '-' || group[i] == '.')
    && group[0] != '-' && group[0] != '.' && group[|group| - 1] != '-' && group[|group| - 1] != '.'
  }

  /** Group, version and kind syntax, the observation's namespace, and a bounded identity. */
  predicate ValidResource(r: ResourceIdentity, namespace: string) {
    && (r.group == "" || ValidGroup(r.group))
    && 1 <= |r.version| <= 64 && IsAlphanumeric(r.version[0])
    && (forall i | 0 <= i < |r.version| :: IsAlphanumeric(r.version[i]) || r.version[i] == '.' || r.version[i] == '-')
    && 1 <= |r.kind| <= 128 && !IsDigit(r.kind[0]) && (forall i | 0 <= i < |r.kind| :: IsAlphanumeric(r.kind[i]))
    && r.namespace == namespace && IsKubeName(r.name) && Printable(r.uid, 1, 128)
  }

  predicate SameResource(a: ResourceIdentity, b: ResourceIdentity) {
    a.group == b.group && a.version == b.version && a.kind == b.kind && a.namespace == b.namespace && a.name == b.name
  }

  predicate ValidObservation(o: Observation) {
    && IsUuid(o.deploymentID) && IsUuid(o.applicationID) && IsUuid(o.projectID) && IsUuid(o.environmentID)
    && IsUuid(o.argoUID)
    && IsKubeName(o.argoNamespace) && o.argoName == ApplicationName(o.deploymentID)
    && IsKubeName(o.destinationNamespace)
    && IsCommit(o.desiredRevision) && IsCommit(o.observedRevision) && |o.message| <= 1024 && |o.resources| <= 512
    && o.observedAt != ZERO_TIME && o.updatedAt != ZERO_TIME && o.observedAt <= o.updatedAt
    && (forall i | 0 <= i < |o.resources| :: ValidResource(o.resources[i], o.destinationNamespace))
    && forall i, j | 0 <= i < j < |o.resources| :: !SameResource(o.resources[i], o.resources[j])
  }

  type Observations = map<string, Observation>

  /** Everything that identifies the Application except the UID Kubernetes gave it. */
  predicate SameIdentity(a: Observation, b: Observation) {
    && a.applicationID == b.applicationID && a.projectID == b.projectID && a.environmentID == b.environmentID
    && a.argoNamespace == b.argoNamespace && a.argoName == b.argoName
    && a.destinationNamespace == b.destinationNamespace
  }

  predicate AtDesiredRevision(o: Observation) {
    o.sync == Synced && o.observedRevision == o.desiredRevision
  }

  predicate IdentityConflict(current: Observation, replacement: Observation) {
    !SameIdentity(current, replacement) || (current.argoUID != replacement.argoUID && !AtDesiredRevision(replacement))
  }

  function PutOutcome(values: Observations, o: Observation): Outcome<()> {
    if o.deploymentID !in values then Ok(())
    else
      var current := values[o.deploymentID];
      if o.observedAt < current.observedAt || o.updatedAt < current.updatedAt || IdentityConflict(current, o) then
        Err(Conflict)
      else if o.observedAt == current.observedAt && o.updatedAt == current.updatedAt && o != current then Err(Conflict)
      else Ok(())
  }

  function AfterPut(values: Observations, o: Observation): Observations {
    if PutOutcome(values, o).Ok? then values[o.deploymentID := o] else values
  }

  // Namespace leases.

  datatype Lease = Lease(namespace: string, owner: string, epoch: int, until: Time)
  {
    predicate Valid() {
      IsKubeName(namespace) && IsOwner(owner, 8) && epoch > 0 && until != ZERO_TIME
    }
  }

  const NO_LEASE := Lease("", "", 0, ZERO_TIME)
  const MINIMUM_LEASE := 15 * SECOND
  const MAXIMUM_LEASE := 300 * SECOND

  predicate ValidDuration(duration: int) {
    MINIMUM_LEASE <= duration <= MAXIMUM_LEASE
  }

  /** `nextPollAt` is the lease's deadline while work is active, unless a wake moved it back. */
  datatype Runtime = Runtime(
    lease: Lease, snapshotVersion: string, failures: int, failureCode: string,
    nextPollAt: Time, lastCompletedAt: Time, updatedAt: Time)

  function Fresh(nextPollAt: Time, updatedAt: Time): Runtime {
    Runtime(NO_LEASE, "", 0, "", nextPollAt, ZERO_TIME, updatedAt)
  }

  type Runtimes = map<string, Runtime>

  datatype Report = Report(snapshotVersion: string, failures: int, failureCode: string, nextPollAt: Time)
  {
    predicate Valid() {
      && nextPollAt != ZERO_TIME && 0 <= failures <= 32 && Printable(snapshotVersion, 0, 128)
      && (if failures == 0 then failureCode == "" && snapshotVersion != ""
          else IsFailureCode(failureCode) && snapshotVersion == "")
    }
  }

  datatype Work = Work(lease: Lease, failures: int)

  predicate Held(r: Runtime, now: Time) {
    r.lease.owner != "" && r.lease.until > now
  }

  predicate SameActiveLease(current: Lease, candidate: Lease, now: Time) {
    && current.namespace == candidate.namespace && current.owner == candidate.owner && current.epoch == candidate.epoch
    && current.owner != "" && current.until > now
  }

  predicate ClaimArguments(namespace: string, owner: string, now: Time, duration: int) {
    IsKubeName(namespace) && IsOwner(owner, 8) && now != ZERO_TIME && ValidDuration(duration)
  }

  /** The runtime a claim starts from; an unknown namespace is due at once. */
  function Known(rs: Runtimes, namespace: string, now: Time): Runtime {
    if namespace in rs then rs[namespace] else Fresh(now, now)
  }

  function Claimed(r: Runtime, namespace: string, owner: string, now: Time, duration: int): Runtime {
    r.(lease := Lease(namespace, owner, r.lease.epoch + 1, now + duration), nextPollAt := now + duration,
      updatedAt := now)
  }

  function ClaimOutcome(rs: Runtimes, namespace: string, owner: string, now: Time, duration: int): Outcome<Work> {
    if !ClaimArguments(namespace, owner, now, duration) then Err(Invalid)
    else
      var r := Known(rs, namespace, now);
      if Held(r, now) then Err(LeaseHeld)
      else if r.nextPollAt > now then Err(NotFound)
      else Ok(Work(Claimed(r, namespace, owner, now, duration).lease, r.failures))
  }

  function Beaten(r: Runtime, now: Time, duration: int): Runtime {
    r.(lease := r.lease.(until := now + duration),
       nextPollAt := if r.nextPollAt == r.lease.until then now + duration else r.nextPollAt, updatedAt := now)
  }

  function Finished(r: Runtime, report: Report, now: Time): Runtime {
    r.(lease := r.lease.(owner := "", until := ZERO_TIME),
       snapshotVersion := if report.failures == 0 then report.snapshotVersion else r.snapshotVersion,
       lastCompletedAt := if report.failures == 0 then now else r.lastCompletedAt,
       failures := report.failures, failureCode := report.failureCode,
       nextPollAt := if r.nextPollAt <= now then now else report.nextPollAt, updatedAt := now)
  }

  function Woken(r: Runtime, now: Time): Runtime {
    r.(nextPollAt := if r.nextPollAt > now then now else r.nextPollAt, updatedAt := now)
  }

  // Everything that changes a namespace's runtime.

  datatype Op =
    | Claim(namespace: string, owner: string, duration: int)
    | Heartbeat(lease: Lease, duration: int)
    | Finish(lease: Lease, report: Report)
    | Wake(namespace: string)

  function Target(op: Op): string {
    match op case Claim(namespace, _, _) => namespace case Heartbeat(lease, _) => lease.namespace
    case Finish(lease, _) => lease.namespace case Wake(namespace) => namespace
  }

  function Fenced(rs: Runtimes, lease: Lease, acceptable: bool, now: Time): Outcome<()> {
    if !lease.Valid() || now == ZERO_TIME || !acceptable then Err(Invalid)
    else if lease.namespace !in rs || !SameActiveLease(rs[lease.namespace].lease, lease, now) then Err(LeaseLost)
    else Ok(())
  }

  /** The runtime an accepted operation leaves. */
  function Perform(rs: Runtimes, op: Op, now: Time): Outcome<Runtime> {
    match op
    case Claim(namespace, owner, duration) =>
      (match ClaimOutcome(rs, namespace, owner, now, duration)
       case Ok(_) => Ok(Claimed(Known(rs, namespace, now), namespace, owner, now, duration))
       case Err(e) => Err(e))
    case Heartbeat(lease, duration) =>
      (match Fenced(rs, lease, ValidDuration(duration), now)
       case Ok(_) => Ok(Beaten(rs[lease.namespace], now, duration))
       case Err(e) => Err(e))
    case Finish(lease, report) =>
      (match Fenced(rs, lease, report.Valid() && report.nextPollAt >= now, now)
       case Ok(_) => Ok(Finished(rs[lease.namespace], report, now))
       case Err(e) => Err(e))
    case Wake(namespace) =>
      if !IsKubeName(namespace) || now == ZERO_TIME then Err(Invalid)
      else Ok(if namespace in rs then Woken(rs[namespace], now) else Fresh(now, now))
  }

  function After(rs: Runtimes, op: Op, now: Time): Runtimes {
    match Perform(rs, op, now) case Ok(r) => rs[Target(op) := r] case Err(_) => rs
  }

  // The class.

  class MemoryObservationStore {
    var values: Observations
    var runtimes: Runtimes

    constructor ()
      ensures values == map[] && runtimes == map[]
    {
      values, runtimes := map[], map[];
    }

    method PutLocked(value: Observation) returns (r: Outcome<()>)
      modifies this
      ensures r == PutOutcome(old(values), value) && values == AfterPut(old(values), value) && runtimes == old(runtimes)
    {
      if value.deploymentID in values {
        var current := values[value.deploymentID];
        if value.observedAt < current.observedAt || value.updatedAt < current.updatedAt {
          return Err(Conflict);
        }
        if IdentityConflict(current, value) {
          return Err(Conflict);
        }
        if value.observedAt == current.observedAt && value.updatedAt == current.updatedAt {
          if current != value {
            return Err(Conflict);
          }
          assert values[value.deploymentID := value] == values;
          return Ok(());
        }
      }
      values := values[value.deploymentID := value];
      return Ok(());
    }

    method ClaimObservation(namespace: string, owner: string, now: Time, duration: int) returns (r: Outcome<Work>)
      modifies this
      ensures r == ClaimOutcome(old(runtimes), namespace, owner, now, duration)
      ensures runtimes == After(old(runtimes), Claim(namespace, owner, duration), now) && values == old(values)
    {
      if !ClaimArguments(namespace, owner, now, duration) {
        return Err(Invalid);
      }
      var state := Known(runtimes, namespace, now);
      if state.lease.owner != "" && state.lease.until > now {
        return Err(LeaseHeld);
      }
      if state.nextPollAt > now {
        return Err(NotFound);
      }
      var lease := Lease(namespace, owner, state.lease.epoch + 1, now + duration);
      var failures := state.failures;
      state := state.(lease := lease);
      state := state.(nextPollAt := state.lease.until);
      state := state.(updatedAt := now);
      runtimes := runtimes[namespace := state];
      return Ok(Work(lease, failures));
    }

    method HeartbeatObservation(lease: Lease, now: Time, duration: int) returns (r: Outcome<Lease>)
      modifies this
      ensures var p := Perform(old(runtimes), Heartbeat(lease, duration), now);
              r == match p case Ok(state) => Ok(state.lease) case Err(e) => Err(e)
      ensures runtimes == After(old(runtimes), Heartbeat(lease, duration), now) && values == old(values)
    {
      if !lease.Valid() || now == ZERO_TIME || !ValidDuration(duration) {
        return Err(Invalid);
      }
      if lease.namespace !in runtimes || !SameActiveLease(runtimes[lease.namespace].lease, lease, now) {
        return Err(LeaseLost);
      }
      var state := runtimes[lease.namespace];
      var previousUntil := state.lease.until;
      state := state.(lease := state.lease.(until := now + duration));
      if state.nextPollAt == previousUntil {
        state := state.(nextPollAt := state.lease.until);
      }
      state := state.(updatedAt := now);
      runtimes := runtimes[lease.namespace := state];
      return Ok(state.lease);
    }

    method PutObservationFenced(lease: Lease, value: Observation, now: Time) returns (r: Outcome<()>)
      modifies this
      ensures runtimes == old(runtimes)
      ensures var f := Fenced(runtimes, lease, ValidObservation(value) && value.argoNamespace == lease.namespace, now);
              r == if f.Ok? then PutOutcome(old(values), value) else f
      ensures values == if r.Ok? then AfterPut(old(values), value) else old(values)
    {
      if !lease.Valid() || !ValidObservation(value) || now == ZERO_TIME || value.argoNamespace != lease.namespace {
        return Err(Invalid);
      }
      if lease.namespace !in runtimes || !SameActiveLease(runtimes[lease.namespace].lease, lease, now) {
        return Err(LeaseLost);
      }
      r := PutLocked(value);
    }

    method FinishObservation(lease: Lease, report: Report, now: Time) returns (r: Outcome<()>)
      modifies this
      ensures r == Fenced(old(runtimes), lease, report.Valid() && report.nextPollAt >= now, now)
      ensures runtimes == After(old(runtimes), Finish(lease, report), now) && values == old(values)
    {
      if !lease.Valid() || !report.Valid() || now == ZERO_TIME || report.nextPollAt < now {
        return Err(Invalid);
      }
      if lease.namespace !in runtimes || !SameActiveLease(runtimes[lease.namespace].lease, lease, now) {
        return Err(LeaseLost);
      }
      var state := runtimes[lease.namespace];
      var nextPollAt := report.nextPollAt;
      if state.nextPollAt <= now {
        nextPollAt := now;
      }
      state := state.(lease := state.lease.(owner := "", until := ZERO_TIME));
      if report.failures == 0 {
        state := state.(snapshotVersion := report.snapshotVersion, lastCompletedAt := now);
      }
      state := state.(failures := report.failures, failureCode := report.failureCode);
      state := state.(nextPollAt := nextPollAt, updatedAt := now);
      runtimes := runtimes[lease.namespace := state];
      return Ok(());
    }

    method WakeObservation(namespace: string, now: Time) returns (r: Outcome<()>)
      modifies this
      ensures r == if IsKubeName(namespace) && now != ZERO_TIME then Ok(()) else Err(Invalid)
      ensures runtimes == After(old(runtimes), Wake(namespace), now) && values == old(values)
    {
      if !IsKubeName(namespace) || now == ZERO_TIME {
        return Err(Invalid);
      }
      var state := if namespace in runtimes then runtimes[namespace] else Fresh(ZERO_TIME, ZERO_TIME);
      if namespace !in runtimes {
        state := state.(nextPollAt := now);
      } else if state.nextPollAt > now {
        state := state.(nextPollAt := now);
      }
      state := state.(updatedAt := now);
      runtimes := runtimes[namespace := state];
      return Ok(());
    }
  }

  // Exponential backoff between two bounds.

  lemma {:induction false} Pow2Grows(m: nat, n: nat)
    requires m <= n
    ensures Pow2(m) <= Pow2(n)
  {
    if m < n {
      Pow2Grows(m, n - 1);
    }
  }

  lemma ScaledGrows(base: nat, m: nat, n: nat)
    requires m <= n
    ensures base * Pow2(m) <= base * Pow2(n)
  {
    Pow2Grows(m, n);
  }

  /** The minimum doubled once per failure after the first, but never above the maximum. */
  method Backoff(minimum: nat, maximum: nat, failures: int) returns (delay: nat)
    requires 0 < minimum <= maximum
    ensures var unbounded := minimum * Pow2(if failures > 1 then failures - 1 else 0);
            delay == if unbounded > maximum then maximum else unbounded
  {
    delay := minimum;
    var index := 1;
    ghost var last := if failures > 1 then failures - 1 else 0;
    while index < failures && delay < maximum
      invariant 1 <= index && (index <= failures || index == 1)
      invariant delay == minimum * Pow2(index - 1)
    {
      if delay > maximum / 2 {
        ScaledGrows(minimum, index, last);
        assert minimum * Pow2(index) == 2 * delay;
        return maximum;
      }
      delay := delay * 2;
      index := index + 1;
    }
    if index <= last {
      ScaledGrows(minimum, index - 1, last);
    }
    if delay > maximum {
      ScaledGrows(minimum, index - 1, last);
      return maximum;
    }
  }
}
