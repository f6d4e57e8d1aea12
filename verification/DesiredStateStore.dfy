/** The durable command store: its transitions as functions of the stored commands, and the class that performs them. */
module DesiredStateStore {
  import opened Identifiers
  import opened DesiredStateModel

  datatype Error = Invalid | NotFound | Conflict | LeaseLost
  datatype Outcome<+T> = Ok(value: T) | Err(error: Error)

  type Commands = map<string, Command>

  /** Commands are stored under their own identifier. */
  predicate WellKeyed(s: Commands) {
    forall k | k in s :: s[k].plan.id == k
  }

  predicate ValidLeaseDuration(duration: int) {
    MINIMUM_LEASE <= duration <= MAXIMUM_LEASE
  }

  // Transitions that present a lease.

  datatype Op =
    | Heartbeat(duration: int)
    | BindWriteBase(base: string, observedAt: Time)
    | MarkGitCommitted(revision: string)
    | CompleteVerified(verified: string)
    | Retry(retryCode: string, retryAt: Time)
    | Supersede
    | Fail(failureCode: string)

  predicate Acceptable(lease: Lease, op: Op, now: Time) {
    && lease.Valid() && now != ZERO_TIME
    && match op
       case Heartbeat(duration) => ValidLeaseDuration(duration)
       case BindWriteBase(base, observedAt) => IsCommit(base) && observedAt != ZERO_TIME && observedAt <= now
       case MarkGitCommitted(revision) => IsCommit(revision)
       case CompleteVerified(revision) => IsCommit(revision)
       case Retry(code, retryAt) => IsFailureCode(code) && retryAt != ZERO_TIME && retryAt >= now
       case Supersede => true
       case Fail(code) => IsFailureCode(code)
  }

  predicate ActiveLease(c: Command, lease: Lease, now: Time) {
    c.lease == Some(lease) && lease.until > now
  }

  function Saturating(failures: int): int {
    if failures >= 30 then 30 else failures + 1
  }

  /** What an operation does to the command whose active lease it presents. */
  function ApplyOp(c: Command, lease: Lease, op: Op, now: Time): Outcome<Command> {
    match op
    case Heartbeat(duration) =>
      Ok(c.(lease := Some(lease.(until := now + duration)), updatedAt := now))
    case BindWriteBase(base, observedAt) =>
      if c.writeBaseRevision != "" then
        if c.writeBaseRevision != base || c.writeBaseObservedAt != Some(observedAt) then Err(Conflict) else Ok(c)
      else if c.state != Claimed || observedAt < c.plan.createdAt || now < c.updatedAt then Err(Conflict)
      else Ok(c.(writeBaseRevision := base, writeBaseObservedAt := Some(observedAt), updatedAt := now))
    case MarkGitCommitted(revision) =>
      if c.state == GitCommitted then
        if c.committedRevision != revision then Err(Conflict) else Ok(c)
      else if c.state != Claimed || now < c.updatedAt then Err(Conflict)
      else Ok(c.(state := GitCommitted, committedRevision := revision, committedAt := Some(now), updatedAt := now))
    case CompleteVerified(revision) =>
      if c.state != GitCommitted || c.committedRevision != revision || c.committedAt == None
        || now < c.committedAt.value then
        Err(Conflict)
      else Ok(c.(state := Verified, verifiedAt := Some(now), completedAt := Some(now), updatedAt := now, lease := None))
    case Retry(code, retryAt) =>
      if c.state != Claimed && c.state != GitCommitted then Err(Conflict)
      else Ok(c.(state := if c.state == Claimed then Pending else c.state, nextAttemptAt := retryAt,
                 consecutiveFailures := Saturating(c.consecutiveFailures), lastFailureCode := code,
                 lease := None, updatedAt := now))
    case Supersede =>
      if c.state != Claimed || c.writeBaseRevision != "" then Err(Conflict)
      else Ok(c.(state := Superseded, consecutiveFailures := Saturating(c.consecutiveFailures),
                 lastFailureCode := "projection-superseded", lease := None, updatedAt := now, completedAt := Some(now)))
    case Fail(code) =>
      if c.state != Claimed then Err(Conflict)
      else Ok(c.(state := Failed, consecutiveFailures := Saturating(c.consecutiveFailures),
                 lastFailureCode := code, lease := None, updatedAt := now, completedAt := Some(now)))
  }

  /** The outcome of presenting a lease to the store; on success the named command becomes the returned value. */
  function Perform(s: Commands, lease: Lease, op: Op, now: Time): Outcome<Command> {
    if !Acceptable(lease, op, now) then Err(Invalid)
    else if lease.commandID !in s || !ActiveLease(s[lease.commandID], lease, now) then Err(LeaseLost)
    else ApplyOp(s[lease.commandID], lease, op, now)
  }

  function After(s: Commands, lease: Lease, r: Outcome<Command>): Commands {
    match r case Ok(c) => s[lease.commandID := c] case Err(_) => s
  }

  // Creation.

  predicate Creatable(c: Command) {
    && Valid(c) && c.plan.appProjectContent != "" && c.lease == None
    && c.writeBaseRevision == "" && c.writeBaseObservedAt == None
    && (c.state == Pending || c.state == BlockedPrerequisite)
  }

  ghost predicate NoLive(s: Commands, environmentID: string) {
    forall k | k in s && s[k].plan.environmentID == environmentID :: !Live(s[k].state)
  }

  /** `g` is one past the latest generation stored for the environment. */
  ghost predicate NextGeneration(s: Commands, environmentID: string, g: int) {
    && (forall k | k in s && s[k].plan.environmentID == environmentID :: s[k].plan.generation < g)
    && (g == 1 || exists k :: k in s && s[k].plan.environmentID == environmentID && s[k].plan.generation == g - 1)
  }

  /** The scanned commands of an environment are terminal, have other generations and reach at most `latest`. */
  ghost predicate ScannedUpTo(s: Commands, scanned: set<string>, environmentID: string, g: int, latest: int) {
    && (forall k | k in scanned && k in s && s[k].plan.environmentID == environmentID ::
          !Live(s[k].state) && s[k].plan.generation != g && s[k].plan.generation <= latest)
    && latest >= 0
    && (latest == 0 || exists k ::
       k in scanned && k in s && s[k].plan.environmentID == environmentID && s[k].plan.generation == latest)
  }

  lemma CreatableGeneration(c: Command)
    ensures Creatable(c) ==> c.plan.generation > 0
  {
  }

  lemma NothingScanned(s: Commands, environmentID: string, g: int)
    ensures ScannedUpTo(s, {}, environmentID, g, 0)
  {
  }

  lemma ScannedMore(s: Commands, scanned: set<string>, environmentID: string, g: int, latest: int, k: string)
    requires ScannedUpTo(s, scanned, environmentID, g, latest) && k in s
    requires s[k].plan.environmentID == environmentID ==> s[k].plan.generation != g && !Live(s[k].state)
    ensures ScannedUpTo(s, scanned + {k}, environmentID, g,
                        if s[k].plan.environmentID == environmentID && s[k].plan.generation > latest then
                          s[k].plan.generation else latest)
  {
  }

  lemma TakenOrLive(s: Commands, c: Command, k: string)
    requires k in s && s[k].plan.environmentID == c.plan.environmentID
    requires s[k].plan.generation == c.plan.generation || Live(s[k].state)
    ensures !(NoLive(s, c.plan.environmentID) && NextGeneration(s, c.plan.environmentID, c.plan.generation))
  {
  }

  lemma LatestGenerationScanned(s: Commands, environmentID: string, g: int, latest: int)
    requires ScannedUpTo(s, s.Keys, environmentID, g, latest) && g > 0
    ensures NoLive(s, environmentID)
    ensures NextGeneration(s, environmentID, g) <==> g == latest + 1
  {
    if NextGeneration(s, environmentID, g) {
      if g != 1 {
        var k :| k in s && s[k].plan.environmentID == environmentID && s[k].plan.generation == g - 1;
        assert g - 1 <= latest;
      }
      if latest != 0 {
        var k :| k in s && s[k].plan.environmentID == environmentID && s[k].plan.generation == latest;
        assert latest < g;
      }
    }
  }

  /** What creation answers; `Ok(true)` means the command was stored. */
  ghost function CreateOutcome(s: Commands, c: Command): Outcome<bool> {
    if !Creatable(c) then Err(Invalid)
    else if c.plan.id in s then (if s[c.plan.id] == c then Ok(false) else Err(Conflict))
    else if NoLive(s, c.plan.environmentID) && NextGeneration(s, c.plan.environmentID, c.plan.generation) then Ok(true)
    else Err(Conflict)
  }

  // Claiming.

  predicate Claimable(c: Command, now: Time) {
    Live(c.state) && c.nextAttemptAt <= now && (c.lease == None || c.lease.value.until <= now)
  }

  predicate LeaseHeld(c: Command, now: Time) {
    c.lease.Some? && c.lease.value.until > now
  }

  ghost predicate BindingHeld(s: Commands, bindingID: string, exceptID: string, now: Time) {
    exists j :: j in s && j != exceptID && s[j].plan.platformBindingID == bindingID && LeaseHeld(s[j], now)
  }

  ghost predicate Eligible(s: Commands, k: string, now: Time) {
    k in s && Claimable(s[k], now) && !BindingHeld(s, s[k].plan.platformBindingID, k, now)
  }

  /** The claim order: next attempt, then creation, then identifier. */
  predicate Before(a: Command, b: Command) {
    || a.nextAttemptAt < b.nextAttemptAt
    || (a.nextAttemptAt == b.nextAttemptAt && a.plan.createdAt < b.plan.createdAt)
    || (a.nextAttemptAt == b.nextAttemptAt && a.plan.createdAt == b.plan.createdAt && StringLess(a.plan.id, b.plan.id))
  }

  lemma BeforeTotal(a: Command, b: Command)
    ensures a.plan.id == b.plan.id || Before(a, b) || Before(b, a)
  {
    StringLessTotal(a.plan.id, b.plan.id);
  }

  lemma BeforeTransitive(a: Command, b: Command, c: Command)
    requires Before(a, b) && Before(b, c)
    ensures Before(a, c)
  {
    if StringLess(a.plan.id, b.plan.id) && StringLess(b.plan.id, c.plan.id) {
      StringLessTransitive(a.plan.id, b.plan.id, c.plan.id);
    }
  }

  ghost predicate FirstEligible(s: Commands, k: string, now: Time) {
    && Eligible(s, k, now)
    && forall j | j != k && Eligible(s, j, now) :: Before(s[k], s[j])
  }

  predicate ClaimArguments(owner: string, contract: string, configDigest: string, now: Time, duration: int) {
    && IsOwner(owner, 16) && contract == CONTRACT && IsDigest(configDigest)
    && now != ZERO_TIME && ValidLeaseDuration(duration)
  }

  function ClaimedCommand(c: Command, owner: string, contract: string, configDigest: string, now: Time,
      duration: int): Command {
    var lease := Lease(c.plan.id, owner, c.leaseEpoch + 1, now + duration, contract, configDigest);
    c.(lease := Some(lease), leaseEpoch := lease.epoch, updatedAt := now,
       state := if c.state == GitCommitted then GitCommitted else Claimed)
  }

  // The class.

  predicate Sorted(q: seq<Command>) {
    forall i, j | 0 <= i < j < |q| :: Before(q[i], q[j])
  }

  class MemoryDesiredStateStore {
    var commands: Commands

    ghost predicate Valid()
      reads this
    {
      WellKeyed(commands)
    }

    constructor ()
      ensures Valid() && commands == map[]
    {
      commands := map[];
    }

    method CreateDesiredState(command: Command) returns (r: Outcome<bool>)
      requires Valid()
      modifies this
      ensures Valid()
      ensures r == CreateOutcome(old(commands), command)
      ensures commands == if r == Ok(true) then old(commands)[command.plan.id := command] else old(commands)
    {
      hide Creatable, NoLive, NextGeneration, ScannedUpTo, Live;
      if !Creatable(command) {
        return Err(Invalid);
      }
      CreatableGeneration(command);
      if command.plan.id in commands {
        return if commands[command.plan.id] == command then Ok(false) else Err(Conflict);
      }
      var environmentID, generation := command.plan.environmentID, command.plan.generation;
      var latest := 0;
      var rest := commands.Keys;
      assert commands.Keys - rest == {};
      NothingScanned(commands, environmentID, generation);
      while rest != {}
        invariant rest <= commands.Keys && commands == old(commands)
        invariant ScannedUpTo(commands, commands.Keys - rest, environmentID, generation, latest)
        decreases |rest|
      {
        var k :| k in rest;
        ghost var scanned := commands.Keys - rest;
        rest := rest - {k};
        assert commands.Keys - rest == scanned + {k};
        var current := commands[k];
        if current.plan.environmentID == environmentID {
          if current.plan.generation == generation || Live(current.state) {
            TakenOrLive(commands, command, k);
            return Err(Conflict);
          }
          ScannedMore(commands, scanned, environmentID, generation, latest, k);
          if current.plan.generation > latest {
            latest := current.plan.generation;
          }
        } else {
          ScannedMore(commands, scanned, environmentID, generation, latest, k);
        }
      }
      assert commands.Keys - rest == commands.Keys;
      LatestGenerationScanned(commands, environmentID, generation, latest);
      if generation != latest + 1 {
        return Err(Conflict);
      }
      commands := commands[command.plan.id := command];
      return Ok(true);
    }

    method BindingLeaseHeld(bindingID: string, exceptID: string, now: Time) returns (held: bool)
      requires Valid()
      ensures held == BindingHeld(commands, bindingID, exceptID, now)
    {
      var rest := commands.Keys;
      while rest != {}
        invariant rest <= commands.Keys
        invariant forall j | j in commands.Keys - rest ::
                    !(j != exceptID && commands[j].plan.platformBindingID == bindingID && LeaseHeld(commands[j], now))
        decreases |rest|
      {
        var j :| j in rest;
        rest := rest - {j};
        var c := commands[j];
        if c.plan.id != exceptID && c.plan.platformBindingID == bindingID && LeaseHeld(c, now) {
          return true;
        }
      }
      return false;
    }

    /** The due commands without a current lease, in claim order. */
    method SortedCandidates(now: Time) returns (q: seq<Command>)
      requires Valid()
      ensures Candidates(commands, now, q)
    {
      q := [];
      var rest := commands.Keys;
      while rest != {}
        invariant rest <= commands.Keys
        invariant Sorted(q)
        invariant forall c | c in q ::
                  c.plan.id in commands.Keys - rest && commands[c.plan.id] == c && Claimable(c, now)
        invariant forall k | k in commands.Keys - rest && Claimable(commands[k], now) :: commands[k] in q
        decreases |rest|
      {
        var k :| k in rest;
        rest := rest - {k};
        if Claimable(commands[k], now) {
          assert forall i | 0 <= i < |q| :: q[i] in q;
          q := Insert(commands[k], q);
        }
      }
    }

    method ClaimDesiredState(owner: string, contract: string, configDigest: string, now: Time, duration: int)
      returns (r: Outcome<Command>)
      requires Valid()
      modifies this
      ensures Valid()
      ensures r == Err(Invalid) <==> !ClaimArguments(owner, contract, configDigest, now, duration)
      ensures r == Err(NotFound) <==>
                ClaimArguments(owner, contract, configDigest, now, duration)
                  && forall k :: !Eligible(old(commands), k, now)
      ensures r.Err? ==> (r.error == Invalid || r.error == NotFound) && commands == old(commands)
      ensures r.Ok? ==>
                var k := r.value.plan.id;
                && FirstEligible(old(commands), k, now)
                && r.value == ClaimedCommand(old(commands)[k], owner, contract, configDigest, now, duration)
                && commands == old(commands)[k := r.value]
    {
      if !ClaimArguments(owner, contract, configDigest, now, duration) {
        return Err(Invalid);
      }
      hide ClaimArguments, ClaimedCommand, Eligible, FirstEligible, Candidates, BindingHeld;
      var candidates := SortedCandidates(now);
      for i := 0 to |candidates|
        invariant commands == old(commands)
        invariant forall h | 0 <= h < i :: !Eligible(commands, candidates[h].plan.id, now)
      {
        var held := BindingLeaseHeld(candidates[i].plan.platformBindingID, candidates[i].plan.id, now);
        CandidateAt(commands, now, candidates, i);
        if !held {
          var k := candidates[i].plan.id;
          var claimed := ClaimedCommand(commands[k], owner, contract, configDigest, now, duration);
          ClaimedIdentity(commands[k], owner, contract, configDigest, now, duration);
          commands := commands[k := claimed];
          return Ok(claimed);
        }
      }
      NoneEligible(commands, now, candidates);
      return Err(NotFound);
    }

    method HeartbeatDesiredState(lease: Lease, now: Time, duration: int) returns (r: Outcome<Lease>)
      requires Valid()
      modifies this
      ensures Valid()
      ensures var p := Perform(old(commands), lease, Heartbeat(duration), now);
              && commands == After(old(commands), lease, p)
              && r == match p case Ok(c) => Ok(c.lease.value) case Err(e) => Err(e)
    {
      if !lease.Valid() || now == ZERO_TIME || !ValidLeaseDuration(duration) {
        return Err(Invalid);
      }
      if lease.commandID !in commands || !ActiveLease(commands[lease.commandID], lease, now) {
        return Err(LeaseLost);
      }
      var command := commands[lease.commandID];
      var updated := lease.(until := now + duration);
      command := command.(lease := Some(updated), updatedAt := now);
      commands := commands[lease.commandID := command];
      return Ok(updated);
    }

    method BindDesiredStateWriteBase(lease: Lease, revision: string, observedAt: Time, now: Time)
      returns (r: Outcome<Command>)
      requires Valid()
      modifies this
      ensures Valid()
      ensures r == Perform(old(commands), lease, BindWriteBase(revision, observedAt), now)
      ensures commands == After(old(commands), lease, r)
    {
      if !lease.Valid() || !IsCommit(revision) || observedAt == ZERO_TIME || now == ZERO_TIME || observedAt > now {
        return Err(Invalid);
      }
      if lease.commandID !in commands || !ActiveLease(commands[lease.commandID], lease, now) {
        return Err(LeaseLost);
      }
      var command := commands[lease.commandID];
      if command.writeBaseRevision != "" {
        if command.writeBaseRevision != revision || command.writeBaseObservedAt == None
           || command.writeBaseObservedAt.value != observedAt {
          return Err(Conflict);
        }
        return Ok(command);
      }
      if command.state != Claimed || observedAt < command.plan.createdAt || now < command.updatedAt {
        return Err(Conflict);
      }
      command := command.(writeBaseRevision := revision, writeBaseObservedAt := Some(observedAt), updatedAt := now);
      commands := commands[lease.commandID := command];
      return Ok(command);
    }

    method MarkDesiredStateGitCommitted(lease: Lease, revision: string, now: Time) returns (r: Outcome<Command>)
      requires Valid()
      modifies this
      ensures Valid()
      ensures r == Perform(old(commands), lease, MarkGitCommitted(revision), now)
      ensures commands == After(old(commands), lease, r)
    {
      if !lease.Valid() || !IsCommit(revision) || now == ZERO_TIME {
        return Err(Invalid);
      }
      if lease.commandID !in commands || !ActiveLease(commands[lease.commandID], lease, now) {
        return Err(LeaseLost);
      }
      var command := commands[lease.commandID];
      if command.state == GitCommitted {
        if command.committedRevision != revision {
          return Err(Conflict);
        }
        return Ok(command);
      }
      if command.state != Claimed || now < command.updatedAt {
        return Err(Conflict);
      }
      command := command.(state := GitCommitted, committedRevision := revision, committedAt := Some(now),
        updatedAt := now);
      commands := commands[lease.commandID := command];
      return Ok(command);
    }

    method CompleteDesiredStateVerified(lease: Lease, revision: string, now: Time) returns (r: Outcome<Command>)
      requires Valid()
      modifies this
      ensures Valid()
      ensures r == Perform(old(commands), lease, CompleteVerified(revision), now)
      ensures commands == After(old(commands), lease, r)
    {
      if !lease.Valid() || !IsCommit(revision) || now == ZERO_TIME {
        return Err(Invalid);
      }
      if lease.commandID !in commands || !ActiveLease(commands[lease.commandID], lease, now) {
        return Err(LeaseLost);
      }
      var command := commands[lease.commandID];
      if command.state != GitCommitted || command.committedRevision != revision || command.committedAt == None
         || now < command.committedAt.value {
        return Err(Conflict);
      }
      command := command.(state := Verified, verifiedAt := Some(now), completedAt := Some(now), updatedAt := now,
        lease := None);
      commands := commands[lease.commandID := command];
      return Ok(command);
    }

    method RetryDesiredState(lease: Lease, failureCode: string, nextAttemptAt: Time, now: Time)
      returns (r: Outcome<Command>)
      requires Valid()
      modifies this
      ensures Valid()
      ensures r == Perform(old(commands), lease, Retry(failureCode, nextAttemptAt), now)
      ensures commands == After(old(commands), lease, r)
    {
      if !lease.Valid() || now == ZERO_TIME || !IsFailureCode(failureCode) || nextAttemptAt == ZERO_TIME
        || nextAttemptAt < now {
        return Err(Invalid);
      }
      if lease.commandID !in commands || !ActiveLease(commands[lease.commandID], lease, now) {
        return Err(LeaseLost);
      }
      var command := commands[lease.commandID];
      if command.state != Claimed && command.state != GitCommitted {
        return Err(Conflict);
      }
      if command.state == Claimed {
        command := command.(state := Pending);
      }
      command := command.(nextAttemptAt := nextAttemptAt, lastFailureCode := failureCode,
                          consecutiveFailures := Saturating(command.consecutiveFailures));
      command := command.(lease := None, updatedAt := now);
      commands := commands[lease.commandID := command];
      return Ok(command);
    }

    method SupersedeDesiredState(lease: Lease, now: Time) returns (r: Outcome<Command>)
      requires Valid()
      modifies this
      ensures Valid()
      ensures r == Perform(old(commands), lease, Supersede, now)
      ensures commands == After(old(commands), lease, r)
    {
      if !lease.Valid() || now == ZERO_TIME {
        return Err(Invalid);
      }
      if lease.commandID !in commands || !ActiveLease(commands[lease.commandID], lease, now) {
        return Err(LeaseLost);
      }
      var command := commands[lease.commandID];
      if command.state != Claimed || command.writeBaseRevision != "" {
        return Err(Conflict);
      }
      command := command.(state := Superseded, consecutiveFailures := Saturating(command.consecutiveFailures),
                          lastFailureCode := "projection-superseded");
      command := command.(lease := None, updatedAt := now, completedAt := Some(now));
      commands := commands[lease.commandID := command];
      return Ok(command);
    }

    method FailDesiredState(lease: Lease, failureCode: string, now: Time) returns (r: Outcome<Command>)
      requires Valid()
      modifies this
      ensures Valid()
      ensures r == Perform(old(commands), lease, Fail(failureCode), now)
      ensures commands == After(old(commands), lease, r)
    {
      if !lease.Valid() || !IsFailureCode(failureCode) || now == ZERO_TIME {
        return Err(Invalid);
      }
      if lease.commandID !in commands || !ActiveLease(commands[lease.commandID], lease, now) {
        return Err(LeaseLost);
      }
      var command := commands[lease.commandID];
      if command.state != Claimed {
        return Err(Conflict);
      }
      command := command.(state := Failed, consecutiveFailures := Saturating(command.consecutiveFailures),
                          lastFailureCode := failureCode);
      command := command.(lease := None, updatedAt := now, completedAt := Some(now));
      commands := commands[lease.commandID := command];
      return Ok(command);
    }
  }

  /** All claimable commands, in claim order. */
  ghost predicate Candidates(s: Commands, now: Time, q: seq<Command>) {
    && Sorted(q)
    && (forall c | c in q :: c.plan.id in s && s[c.plan.id] == c && Claimable(c, now))
    && forall k | k in s && Claimable(s[k], now) :: s[k] in q
  }

  lemma CandidateAt(s: Commands, now: Time, q: seq<Command>, i: nat)
    requires Candidates(s, now, q) && i < |q| && WellKeyed(s)
    ensures var k := q[i].plan.id;
            && k in s && s[k] == q[i]
            && (Eligible(s, k, now) <==> !BindingHeld(s, q[i].plan.platformBindingID, k, now))
            && (Eligible(s, k, now) && (forall h | 0 <= h < i :: !Eligible(s, q[h].plan.id, now)) ==>
               FirstEligible(s, k, now))
  {
    hide BindingHeld, Before;
    var k := q[i].plan.id;
    assert q[i] in q;
    forall j | j != k && Eligible(s, j, now) && (forall h | 0 <= h < i :: !Eligible(s, q[h].plan.id, now))
      ensures Before(s[k], s[j])
    {
      var h :| 0 <= h < |q| && q[h] == s[j];
    }
  }

  lemma NoneEligible(s: Commands, now: Time, q: seq<Command>)
    requires Candidates(s, now, q) && WellKeyed(s) && forall h | 0 <= h < |q| :: !Eligible(s, q[h].plan.id, now)
    ensures forall k :: !Eligible(s, k, now)
  {
    hide BindingHeld, Before;
    forall k | k in s && Claimable(s[k], now)
      ensures !Eligible(s, k, now)
    {
      var h :| 0 <= h < |q| && q[h] == s[k];
    }
  }

  lemma ClaimedIdentity(c: Command, owner: string, contract: string, configDigest: string, now: Time, duration: int)
    ensures ClaimedCommand(c, owner, contract, configDigest, now, duration).plan == c.plan
  {
  }

  /** Inserts a command into a sorted list of commands with other identifiers. */
  method Insert(c: Command, q: seq<Command>) returns (r: seq<Command>)
    requires Sorted(q) && forall i | 0 <= i < |q| :: q[i].plan.id != c.plan.id
    ensures Sorted(r)
    ensures forall x :: x in r <==> x == c || x in q
  {
    var i := 0;
    while i < |q| && Before(q[i], c)
      invariant 0 <= i <= |q|
      invariant forall j | 0 <= j < i :: Before(q[j], c)
    {
      i := i + 1;
    }
    if i < |q| {
      BeforeTotal(q[i], c);
      forall j | i < j < |q|
        ensures Before(c, q[j])
      {
        BeforeTransitive(c, q[i], q[j]);
      }
    }
    r := q[..i] + [c] + q[i..];
    assert q == q[..i] + q[i..];
  }

  // Properties of the transitions.

  /**
   How a stored command may change: what was accepted or receipted is never rewritten, terminal commands are frozen.
   */
  ghost predicate Advances(c: Command, d: Command) {
    && d.plan == c.plan
    && (c.writeBaseRevision != "" ==>
          d.writeBaseRevision == c.writeBaseRevision && d.writeBaseObservedAt == c.writeBaseObservedAt)
    && (c.committedRevision != "" ==>
          d.committedRevision == c.committedRevision && d.committedAt == c.committedAt)
    && c.leaseEpoch <= d.leaseEpoch
    && (!Live(c.state) ==> d == c)
    && (c.state == GitCommitted ==> d.state == GitCommitted || d.state == Verified)
  }

  lemma PerformAdvances(s: Commands, lease: Lease, op: Op, now: Time)
    requires Perform(s, lease, op, now).Ok?
    requires DesiredStateModel.Valid(s[lease.commandID])
    ensures Advances(s[lease.commandID], Perform(s, lease, op, now).value)
    ensures Perform(s, lease, op, now).value.leaseEpoch == s[lease.commandID].leaseEpoch == lease.epoch
  {
  }

  lemma PerformCounters(s: Commands, lease: Lease, op: Op, now: Time)
    requires Perform(s, lease, op, now).Ok? && now > ZERO_TIME
    requires DesiredStateModel.Valid(s[lease.commandID]) && s[lease.commandID].updatedAt <= now
    ensures var d := Perform(s, lease, op, now).value;
            d.plan == s[lease.commandID].plan && ValidCounters(d) && d.updatedAt <= now
  {
    SupersededCode();
    hide ValidPlan, ValidShape, ValidWriteBase, IsCommit, IsUuid, IsDigest, IsOwner, IsFailureCode;
    NotFailureCode();
  }

  lemma SupersededCode()
    ensures IsFailureCode("projection-superseded")
  {
  }

  lemma NotFailureCode()
    ensures !IsFailureCode("")
  {
  }

  lemma PerformReceipts(s: Commands, lease: Lease, op: Op, now: Time)
    requires Perform(s, lease, op, now).Ok? && now > ZERO_TIME
    requires DesiredStateModel.Valid(s[lease.commandID]) && s[lease.commandID].updatedAt <= now
    ensures var d := Perform(s, lease, op, now).value; ValidWriteBase(d) && ValidLease(d)
  {
    hide ValidPlan, ValidShape, IsCommit, IsUuid, IsDigest, IsOwner, IsFailureCode;
    NeverEmpty();
  }

  lemma PerformShape(s: Commands, lease: Lease, op: Op, now: Time)
    requires Perform(s, lease, op, now).Ok? && now > ZERO_TIME
    requires DesiredStateModel.Valid(s[lease.commandID]) && s[lease.commandID].updatedAt <= now
    ensures ValidShape(Perform(s, lease, op, now).value)
            <==> (op.MarkGitCommitted? ==> s[lease.commandID].writeBaseRevision != "")
  {
    hide ValidPlan, IsUuid, IsDigest, IsOwner, IsCommit, IsFailureCode;
    NeverEmpty();
  }

  lemma NeverEmpty()
    ensures !IsCommit("")
  {
  }

  /** Acknowledging a commit is the one transition that needs its caller to have bound a write base first. */
  lemma PerformKeepsValid(s: Commands, lease: Lease, op: Op, now: Time)
    requires Perform(s, lease, op, now).Ok? && now > ZERO_TIME
    requires DesiredStateModel.Valid(s[lease.commandID]) && s[lease.commandID].updatedAt <= now
    ensures DesiredStateModel.Valid(Perform(s, lease, op, now).value)
            <==> (op.MarkGitCommitted? ==> s[lease.commandID].writeBaseRevision != "")
    ensures Perform(s, lease, op, now).value.updatedAt <= now
  {
    PerformCounters(s, lease, op, now);
    PerformReceipts(s, lease, op, now);
    PerformShape(s, lease, op, now);
    hide Perform, ValidPlan, ValidCounters, ValidWriteBase, ValidLease, ValidShape;
  }

  /** Without a write base every acknowledgement of a claimed command is accepted, and leaves it invalid. */
  lemma UnboundAcknowledgement(s: Commands, lease: Lease, revision: string, now: Time)
    requires lease.Valid() && lease.commandID in s && ActiveLease(s[lease.commandID], lease, now)
    requires now > ZERO_TIME && IsCommit(revision)
    requires var c := s[lease.commandID];
             DesiredStateModel.Valid(c) && c.state == Claimed && c.writeBaseRevision == "" && c.updatedAt <= now
    ensures var r := Perform(s, lease, MarkGitCommitted(revision), now);
            r.Ok? && r.value.committedRevision == revision && !DesiredStateModel.Valid(r.value)
  {
    PerformKeepsValid(s, lease, MarkGitCommitted(revision), now);
    hide DesiredStateModel.Valid, IsCommit;
  }

  lemma ClaimKeepsValid(c: Command, owner: string, contract: string, configDigest: string, now: Time, duration: int)
    requires DesiredStateModel.Valid(c) && c.updatedAt <= now
    requires ClaimArguments(owner, contract, configDigest, now, duration) && Claimable(c, now)
    requires now > ZERO_TIME
    ensures DesiredStateModel.Valid(ClaimedCommand(c, owner, contract, configDigest, now, duration))
    ensures Advances(c, ClaimedCommand(c, owner, contract, configDigest, now, duration))
  {
  }
}
