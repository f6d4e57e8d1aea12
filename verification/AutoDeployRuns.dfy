/** Auto-deploy runs: a table of leased, bounded-attempt runs that drive a pipeline idempotent by key. */
module AutoDeployRuns {
  import opened Identifiers
  import opened Naming
  import opened JsonPointer

  const MAX_ATTEMPTS := 20
  const MICROSECOND := 1000

  datatype Error = Invalid | NotFound | Conflict | LeaseLost
  datatype Outcome<+T> = Ok(value: T) | Err(error: Error)

  datatype RunState = Pending | Processing | Submitted | Failed

  /** A run is named by its build attempt and its policy. */
  datatype RunID = RunID(attemptID: string, policyID: string)

  datatype Run = Run(
    id: RunID, policyRevision: nat, state: RunState, attempts: int, availableAt: Time,
    leaseOwner: string, leaseEpoch: int, leaseUntil: Time,
    operationID: string, deploymentID: string, failureCode: string,
    createdAt: Time, updatedAt: Time, completedAt: Option<Time>)

  datatype Lease = Lease(id: RunID, owner: string, epoch: int, until: Time)
  {
    predicate Valid() {
      IsUuid(id.attemptID) && IsUuid(id.policyID) && 1 <= |owner| <= 128 && epoch > 0 && until != ZERO_TIME
    }
  }

  datatype Receipt = Receipt(operationID: string, deploymentID: string)

  type Runs = map<RunID, Run>

  // The idempotency key.

  function IdempotencyKey(policyID: string, revision: nat, attemptID: string): string {
    "auto-deploy/" + policyID + "/" + Decimal(revision) + "/" + attemptID
  }

  function KeyOf(r: Run): string {
    IdempotencyKey(r.id.policyID, r.policyRevision, r.id.attemptID)
  }

  lemma UuidHasNoSlash(s: string)
    requires IsUuid(s)
    ensures '/' !in s
  {
    forall i | 0 <= i < |s|
      ensures s[i] != '/'
    {
      if i < 8 { assert s[i] == s[..8][i]; }
      else if 9 <= i < 13 { assert s[i] == s[9..13][i - 9]; }
      else if 14 <= i < 18 { assert s[i] == s[14..18][i - 14]; }
      else if 19 <= i < 23 { assert s[i] == s[19..23][i - 19]; }
      else if 24 <= i { assert s[i] == s[24..][i - 24]; }
    }
  }

  function KeyParts(policyID: string, revision: nat, attemptID: string): seq<string> {
    ["auto-deploy", policyID, Decimal(revision), attemptID]
  }

  lemma KeySplits(policyID: string, revision: nat, attemptID: string)
    requires IsUuid(policyID) && IsUuid(attemptID)
    ensures Split(IdempotencyKey(policyID, revision, attemptID), '/') == KeyParts(policyID, revision, attemptID)
  {
    var parts := KeyParts(policyID, revision, attemptID);
    UuidHasNoSlash(policyID);
    UuidHasNoSlash(attemptID);
    hide IsUuid, Decimal, Split;
    assert '/' !in "auto-deploy";
    SplitJoin(parts, '/');
    JoinFour(parts[0], policyID, Decimal(revision), attemptID);
    assert "auto-deploy" + "/" == "auto-deploy/";
  }

  lemma JoinFour(a: string, b: string, c: string, d: string)
    ensures Join([a, b, c, d], '/') == a + "/" + b + "/" + c + "/" + d
  {
    assert [a, b, c, d][1..] == [b, c, d] && [b, c, d][1..] == [c, d] && [c, d][1..] == [d];
    assert Join([c, d], '/') == c + "/" + d;
    assert Join([b, c, d], '/') == b + "/" + (c + "/" + d);
    assert Join([a, b, c, d], '/') == a + "/" + (b + "/" + (c + "/" + d));
  }

  /** The key determines policy, revision and attempt. */
  lemma KeyInjective(p: string, m: nat, a: string, q: string, n: nat, b: string)
    requires IsUuid(p) && IsUuid(a) && IsUuid(q) && IsUuid(b) && IdempotencyKey(p, m, a) == IdempotencyKey(q, n, b)
    ensures p == q && m == n && a == b
  {
    KeySplits(p, m, a);
    KeySplits(q, n, b);
    var x, y := KeyParts(p, m, a), KeyParts(q, n, b);
    assert x[1] == y[1] && x[2] == y[2] && x[3] == y[3];
    DecimalInjective(m, n);
  }

  // Guarded updates.

  predicate ValidDuration(duration: int) {
    15 * SECOND <= duration <= 300 * SECOND
  }

  predicate Claimable(r: Run, now: Time) {
    r.attempts < MAX_ATTEMPTS && r.availableAt <= now
      && (r.state == Pending || (r.state == Processing && r.leaseUntil <= now))
  }

  function Claimed(r: Run, owner: string, now: Time, duration: int): Run {
    r.(state := Processing, attempts := r.attempts + 1, leaseOwner := owner, leaseUntil := now + duration,
       leaseEpoch := r.leaseEpoch + 1, failureCode := "", updatedAt := now)
  }

  function LeaseOf(r: Run): Lease {
    Lease(r.id, r.leaseOwner, r.leaseEpoch, r.leaseUntil)
  }

  /** The row a leased update may touch. */
  predicate Guarded(r: Run, lease: Lease, now: Time) {
    r.state == Processing && r.leaseOwner == lease.owner && r.leaseEpoch == lease.epoch && r.leaseUntil > now
  }

  datatype Op =
    | Heartbeat(duration: int)
    | Retry(retryCode: string, available: Time)
    | Fail(failCode: string)
    | Complete(receipt: Receipt)

  predicate Acceptable(lease: Lease, op: Op, now: Time) {
    && lease.Valid() && now != ZERO_TIME
    && match op
       case Heartbeat(duration) => ValidDuration(duration)
       case Retry(code, available) => IsFailureCode(code) && available >= now
       case Fail(code) => IsFailureCode(code)
       case Complete(receipt) => IsUuid(receipt.operationID) && IsUuid(receipt.deploymentID)
  }

  /** A heartbeat always moves the deadline forward. */
  function Extended(lease: Lease, now: Time, duration: int): Time {
    if now + duration > lease.until then now + duration else lease.until + MICROSECOND
  }

  function Updated(r: Run, lease: Lease, op: Op, now: Time): Run {
    match op
    case Heartbeat(duration) => r.(leaseUntil := Extended(lease, now, duration), updatedAt := now)
    case Retry(code, available) =>
      r.(state := if r.attempts >= MAX_ATTEMPTS then Failed else Pending,
         availableAt := if r.attempts >= MAX_ATTEMPTS then r.availableAt else available,
         leaseOwner := "", leaseUntil := ZERO_TIME, failureCode := code,
         completedAt := if r.attempts >= MAX_ATTEMPTS then Some(now) else None, updatedAt := now)
    case Fail(code) =>
      r.(state := Failed, leaseOwner := "", leaseUntil := ZERO_TIME, failureCode := code, completedAt := Some(now),
        updatedAt := now)
    case Complete(receipt) =>
      r.(state := Submitted, leaseOwner := "", leaseUntil := ZERO_TIME, failureCode := "",
         operationID := receipt.operationID, deploymentID := receipt.deploymentID, completedAt := Some(now),
         updatedAt := now)
  }

  function Perform(rs: Runs, lease: Lease, op: Op, now: Time): Outcome<Run> {
    if !Acceptable(lease, op, now) then Err(Invalid)
    else if lease.id !in rs || !Guarded(rs[lease.id], lease, now) then Err(LeaseLost)
    else Ok(Updated(rs[lease.id], lease, op, now))
  }

  function After(rs: Runs, lease: Lease, r: Outcome<Run>): Runs {
    match r case Ok(run) => rs[lease.id := run] case Err(_) => rs
  }

  // Claim order.

  predicate Before(a: Run, b: Run) {
    || a.availableAt < b.availableAt
    || (a.availableAt == b.availableAt && a.createdAt < b.createdAt)
    || (a.availableAt == b.availableAt && a.createdAt == b.createdAt && StringLess(a.id.attemptID, b.id.attemptID))
    || (a.availableAt == b.availableAt && a.createdAt == b.createdAt && a.id.attemptID == b.id.attemptID
        && StringLess(a.id.policyID, b.id.policyID))
  }

  lemma BeforeTotal(a: Run, b: Run)
    ensures a.id == b.id || Before(a, b) || Before(b, a)
  {
    StringLessTotal(a.id.attemptID, b.id.attemptID);
    StringLessTotal(a.id.policyID, b.id.policyID);
  }

  lemma BeforeTransitive(a: Run, b: Run, c: Run)
    requires Before(a, b) && Before(b, c)
    ensures Before(a, c)
  {
    if StringLess(a.id.attemptID, b.id.attemptID) && StringLess(b.id.attemptID, c.id.attemptID) {
      StringLessTransitive(a.id.attemptID, b.id.attemptID, c.id.attemptID);
    }
    if StringLess(a.id.policyID, b.id.policyID) && StringLess(b.id.policyID, c.id.policyID) {
      StringLessTransitive(a.id.policyID, b.id.policyID, c.id.policyID);
    }
  }

  predicate WellKeyed(rs: Runs) {
    forall k | k in rs :: rs[k].id == k
  }

  /** The first claimable run among those no concurrent transaction has locked. */
  ghost predicate FirstClaimable(rs: Runs, locked: set<RunID>, k: RunID, now: Time) {
    && k in rs && k !in locked && Claimable(rs[k], now)
    && forall j | j in rs && j !in locked && j != k && Claimable(rs[j], now) :: Before(rs[k], rs[j])
  }

  predicate ClaimArguments(owner: string, now: Time, duration: int) {
    1 <= |owner| <= 128 && now != ZERO_TIME && ValidDuration(duration)
  }

  /** `best` is the one first claimable run, or there is none. */
  ghost predicate IsFirst(rs: Runs, locked: set<RunID>, now: Time, best: Option<RunID>) {
    match best
    case None =>
      && (forall k | k in rs && k !in locked :: !Claimable(rs[k], now))
      && forall k :: !FirstClaimable(rs, locked, k, now)
    case Some(b) =>
      && FirstClaimable(rs, locked, b, now) && b in rs && b !in locked && Claimable(rs[b], now)
      && forall k :: FirstClaimable(rs, locked, k, now) ==> k == b
  }

  class RunTable {
    var runs: Runs

    ghost predicate Valid()
      reads this
    {
      WellKeyed(runs)
    }

    /** The first due run that no concurrent transaction has locked. */
    method FirstRun(now: Time, locked: set<RunID>) returns (best: Option<RunID>)
      requires Valid()
      ensures IsFirst(runs, locked, now, best)
    {
      hide Best, Before, Claimable, IsFirst;
      var rest := runs.Keys - locked;
      best := None;
      NoneBest(runs, locked, now);
      while rest != {}
        invariant rest <= runs.Keys - locked
        invariant Best(runs, now, rest + locked, best)
        decreases |rest|
      {
        var k :| k in rest;
        BestMore(runs, now, rest + locked, best, k);
        assert (rest + locked) - {k} == (rest - {k}) + locked;
        rest := rest - {k};
        if Claimable(runs[k], now) && (best == None || Before(runs[k], runs[best.value])) {
          best := Some(k);
        }
      }
      assert {} + locked == locked;
      BestIsFirst(runs, locked, now, best);
    }

    /**
     Claims the first due run, skipping rows that concurrent transactions have `locked`. `workable` is the check of
     the run against its policy inside the claiming transaction; when it fails, the transaction is rolled back.
     */
    method ClaimNextRun(owner: string, now: Time, duration: int, locked: set<RunID>, workable: Run -> bool)
      returns (r: Outcome<Lease>)
      requires Valid()
      modifies this
      ensures Valid()
      ensures r == Err(Invalid) <==> !ClaimArguments(owner, now, duration)
      ensures r == Err(NotFound) <==>
                ClaimArguments(owner, now, duration)
                  && forall k | k in old(runs) && k !in locked :: !Claimable(old(runs)[k], now)
      ensures r == Err(Conflict) <==>
                && ClaimArguments(owner, now, duration)
                && exists k ::
                     FirstClaimable(old(runs), locked, k, now) && !workable(Claimed(old(runs)[k], owner, now, duration))
      ensures r.Ok? ==>
                && FirstClaimable(old(runs), locked, r.value.id, now)
                && var claimed := Claimed(old(runs)[r.value.id], owner, now, duration);
                   workable(claimed) && r.value == LeaseOf(claimed) && runs == old(runs)[r.value.id := claimed]
      ensures r.Err? ==> runs == old(runs) && r.error != LeaseLost
    {
      hide Claimable, FirstClaimable, Claimed;
      if !ClaimArguments(owner, now, duration) {
        return Err(Invalid);
      }
      var best := FirstRun(now, locked);
      if best == None {
        return Err(NotFound);
      }
      var claimed := Claimed(runs[best.value], owner, now, duration);
      if !workable(claimed) {
        return Err(Conflict);
      }
      ClaimedIdentity(runs[best.value], owner, now, duration);
      runs := runs[best.value := claimed];
      return Ok(LeaseOf(claimed));
    }

    method HeartbeatRun(lease: Lease, now: Time, duration: int) returns (r: Outcome<Lease>)
      requires Valid()
      modifies this
      ensures Valid()
      ensures var p := Perform(old(runs), lease, Heartbeat(duration), now);
              && runs == After(old(runs), lease, p)
              && r == match p case Ok(run) => Ok(lease.(until := run.leaseUntil)) case Err(e) => Err(e)
      ensures r.Ok? ==> r.value.until > lease.until && r.value.until > now
    {
      if !lease.Valid() || now == ZERO_TIME || !ValidDuration(duration) {
        return Err(Invalid);
      }
      var until := now + duration;
      if until <= lease.until {
        until := lease.until + MICROSECOND;
      }
      if lease.id !in runs || !Guarded(runs[lease.id], lease, now) {
        return Err(LeaseLost);
      }
      runs := runs[lease.id := runs[lease.id].(leaseUntil := until, updatedAt := now)];
      return Ok(lease.(until := until));
    }

    method RetryRun(lease: Lease, code: string, now: Time, available: Time) returns (r: Outcome<Run>)
      requires Valid()
      modifies this
      ensures Valid() && r == Perform(old(runs), lease, Retry(code, available), now)
              && runs == After(old(runs), lease, r)
    {
      if !lease.Valid() || !IsFailureCode(code) || now == ZERO_TIME || available < now {
        return Err(Invalid);
      }
      if lease.id !in runs || !Guarded(runs[lease.id], lease, now) {
        return Err(LeaseLost);
      }
      var run := runs[lease.id];
      if run.attempts >= MAX_ATTEMPTS {
        run := run.(state := Failed, completedAt := Some(now));
      } else {
        run := run.(state := Pending, availableAt := available, completedAt := None);
      }
      run := run.(leaseOwner := "", leaseUntil := ZERO_TIME, failureCode := code, updatedAt := now);
      runs := runs[lease.id := run];
      return Ok(run);
    }

    method FailRun(lease: Lease, code: string, now: Time) returns (r: Outcome<Run>)
      requires Valid()
      modifies this
      ensures Valid() && r == Perform(old(runs), lease, Fail(code), now) && runs == After(old(runs), lease, r)
    {
      if !lease.Valid() || !IsFailureCode(code) || now == ZERO_TIME {
        return Err(Invalid);
      }
      if lease.id !in runs || !Guarded(runs[lease.id], lease, now) {
        return Err(LeaseLost);
      }
      var run := runs[lease.id].(state := Failed, leaseOwner := "", leaseUntil := ZERO_TIME, failureCode := code,
                                 completedAt := Some(now), updatedAt := now);
      runs := runs[lease.id := run];
      return Ok(run);
    }

    method CompleteRun(lease: Lease, receipt: Receipt, now: Time) returns (r: Outcome<Run>)
      requires Valid()
      modifies this
      ensures Valid() && r == Perform(old(runs), lease, Complete(receipt), now) && runs == After(old(runs), lease, r)
    {
      if !lease.Valid() || !IsUuid(receipt.operationID) || !IsUuid(receipt.deploymentID) || now == ZERO_TIME {
        return Err(Invalid);
      }
      if lease.id !in runs || !Guarded(runs[lease.id], lease, now) {
        return Err(LeaseLost);
      }
      var run := runs[lease.id].(state := Submitted, leaseOwner := "", leaseUntil := ZERO_TIME, failureCode := "",
                                 operationID := receipt.operationID, deploymentID := receipt.deploymentID,
                                 completedAt := Some(now), updatedAt := now);
      runs := runs[lease.id := run];
      return Ok(run);
    }
  }

  /** The first claimable run among those no longer in `rest`. */
  ghost predicate Best(rs: Runs, now: Time, rest: set<RunID>, best: Option<RunID>) {
    match best
    case None => forall k | k in rs && k !in rest :: !Claimable(rs[k], now)
    case Some(b) =>
      && b in rs && b !in rest && Claimable(rs[b], now)
      && forall k | k in rs && k !in rest && k != b && Claimable(rs[k], now) :: Before(rs[b], rs[k])
  }

  lemma NoneBest(rs: Runs, locked: set<RunID>, now: Time)
    ensures Best(rs, now, (rs.Keys - locked) + locked, None)
  {
  }

  /** Only one run can be first. */
  lemma FirstIsUnique(rs: Runs, locked: set<RunID>, j: RunID, k: RunID, now: Time)
    requires FirstClaimable(rs, locked, j, now) && FirstClaimable(rs, locked, k, now)
    ensures j == k
  {
    if j != k {
      BeforeAsymmetric(rs[j], rs[k]);
    }
  }

  lemma BeforeAsymmetric(a: Run, b: Run)
    requires Before(a, b)
    ensures !Before(b, a)
  {
    StringLessIrreflexive(a.id.attemptID);
    StringLessIrreflexive(a.id.policyID);
    if StringLess(a.id.attemptID, b.id.attemptID) {
      StringLessAsymmetric(a.id.attemptID, b.id.attemptID);
    }
    if StringLess(a.id.policyID, b.id.policyID) {
      StringLessAsymmetric(a.id.policyID, b.id.policyID);
    }
  }

  lemma ClaimedIdentity(r: Run, owner: string, now: Time, duration: int)
    ensures Claimed(r, owner, now, duration).id == r.id
  {
  }

  lemma BestIsFirst(rs: Runs, locked: set<RunID>, now: Time, best: Option<RunID>)
    requires Best(rs, now, locked, best)
    ensures IsFirst(rs, locked, now, best)
  {
    hide Before, Claimable;
    if best.Some? {
      forall k | FirstClaimable(rs, locked, k, now)
        ensures k == best.value
      {
        FirstIsUnique(rs, locked, k, best.value, now);
      }
    }
  }

  lemma BestMore(rs: Runs, now: Time, rest: set<RunID>, best: Option<RunID>, k: RunID)
    requires WellKeyed(rs) && k in rs && k in rest && Best(rs, now, rest, best)
    ensures best.Some? ==> best.value in rs
    ensures Best(rs, now, rest - {k},
            if Claimable(rs[k], now) && (best == None || Before(rs[k], rs[best.value])) then Some(k) else best)
  {
    hide Before, Claimable;
    if best.Some? {
      BeforeTotal(rs[best.value], rs[k]);
      if Before(rs[k], rs[best.value]) {
        forall j | j in rs && j !in rest && j != k && Claimable(rs[j], now)
          ensures Before(rs[k], rs[j])
        {
          if j != best.value {
            BeforeTransitive(rs[k], rs[best.value], rs[j]);
          }
        }
      }
    }
  }
}
