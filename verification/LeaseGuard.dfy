/** The lease guard of a worker: a heartbeat loop and the worker's own operations, serialized by one mutex. */
module LeaseGuard {
  import opened Identifiers
  import opened DesiredStateModel
  import opened DesiredStateStore

  /** `lost` is the cause of a failed heartbeat. */
  datatype Guard = Guard(lease: Lease, duration: int, timeFloor: Time, lost: Option<Error>, closed: bool)

  predicate Open(g: Guard) {
    g.lost == None && !g.closed
  }

  function Later(a: Time, b: Time): Time {
    if a < b then b else a
  }

  /** The store and the guard after one tick of the heartbeat loop, which stops once the guard is lost or closed. */
  function Beaten(s: Commands, g: Guard, reading: Time): (Commands, Guard) {
    if !Open(g) then (s, g)
    else
      var r := Perform(s, g.lease, Heartbeat(g.duration), Later(reading, g.timeFloor));
      match r
      case Ok(c) => (After(s, g.lease, r), if c.lease.Some? then g.(lease := c.lease.value) else g)
      case Err(e) => (s, g.(lost := Some(e)))
  }

  /** The answer to an operation run under the guard's mutex. */
  function Presented(s: Commands, g: Guard, op: Op, now: Time): Outcome<Command> {
    if Open(g) then Perform(s, g.lease, op, now) else Err(LeaseLost)
  }

  class DesiredStateLeaseGuard {
    const store: MemoryDesiredStateStore
    const duration: int
    var lease: Lease
    var timeFloor: Time
    var lost: Option<Error>
    var closed: bool

    ghost predicate Valid()
      reads this, store
    {
      store.Valid()
    }

    ghost function View(): Guard
      reads this
    {
      Guard(lease, duration, timeFloor, lost, closed)
    }

    constructor (store: MemoryDesiredStateStore, lease: Lease, duration: int)
      requires store.Valid()
      ensures this.store == store && Valid() && View() == Guard(lease, duration, ZERO_TIME, None, false)
    {
      this.store := store;
      this.duration := duration;
      this.lease := lease;
      timeFloor := ZERO_TIME;
      lost := None;
      closed := false;
    }

    method Tick(reading: Time)
      requires Valid()
      modifies this, store
      ensures Valid() && (store.commands, View()) == Beaten(old(store.commands), old(View()), reading)
    {
      if lost.Some? || closed {
        return;
      }
      var heartbeatAt := reading;
      if heartbeatAt < timeFloor {
        heartbeatAt := timeFloor;
      }
      var updated := store.HeartbeatDesiredState(lease, heartbeatAt, duration);
      match updated {
        case Ok(extended) => lease := extended;
        case Err(e) => lost := Some(e);
      }
    }

    method AdvanceTimeFloor(value: Time)
      requires Valid()
      modifies this
      ensures View() == old(View()).(timeFloor := Later(old(timeFloor), value))
    {
      if timeFloor < value {
        timeFloor := value;
      }
    }

    /** Presents the guard's current lease to the store transition that `op` names. */
    method Present(op: Op, now: Time) returns (r: Outcome<Command>)
      requires Valid() && !op.Heartbeat?
      modifies store
      ensures Valid()
      ensures r == Perform(old(store.commands), lease, op, now)
      ensures store.commands == After(old(store.commands), lease, r)
    {
      match op {
        case BindWriteBase(base, observedAt) => r := store.BindDesiredStateWriteBase(lease, base, observedAt, now);
        case MarkGitCommitted(revision) => r := store.MarkDesiredStateGitCommitted(lease, revision, now);
        case CompleteVerified(revision) => r := store.CompleteDesiredStateVerified(lease, revision, now);
        case Retry(code, retryAt) => r := store.RetryDesiredState(lease, code, retryAt, now);
        case Supersede => r := store.SupersedeDesiredState(lease, now);
        case Fail(code) => r := store.FailDesiredState(lease, code, now);
      }
    }

    method Do(op: Op, now: Time) returns (r: Outcome<Command>)
      requires Valid() && !op.Heartbeat?
      modifies store
      ensures Valid()
      ensures r == Presented(old(store.commands), View(), op, now)
      ensures store.commands == After(old(store.commands), lease, r)
    {
      if lost.Some? || closed {
        return Err(LeaseLost);
      }
      r := Present(op, now);
    }

    method Finish(op: Op, now: Time) returns (r: Outcome<Command>)
      requires Valid() && !op.Heartbeat?
      modifies this, store
      ensures Valid() && View() == old(View()).(closed := true)
      ensures r == Presented(old(store.commands), old(View()), op, now)
      ensures store.commands == After(old(store.commands), lease, r)
    {
      if lost.Some? {
        closed := true;
        return Err(LeaseLost);
      }
      if closed {
        return Err(LeaseLost);
      }
      closed := true;
      r := Present(op, now);
    }

    method Close()
      modifies this
      ensures View() == old(View()).(closed := true)
    {
      if !closed {
        closed := true;
      }
    }
  }

  // Every interleaving of the loop, the worker and the other workers on the store.

  /** `clock` is the latest instant anyone has presented so far; clocks need not agree or run forward. */
  datatype World = World(store: Commands, guard: Guard, clock: Time)

  datatype Event =
    | Tick(reading: Time)
    | Do(op: Op, now: Time)
    | Finish(op: Op, now: Time)
    | Close
    | AdvanceTimeFloor(value: Time)
    | OtherCreate(command: Command)
    | OtherClaim(k: string, owner: string, configDigest: string, now: Time, duration: int)
    | OtherOp(lease: Lease, op: Op, now: Time)

  ghost predicate Step(w: World, e: Event, w': World) {
    match e
    case Tick(reading) =>
      && reading > ZERO_TIME
      && var (s, g) := Beaten(w.store, w.guard, reading);
         w' == World(s, g, Later(w.clock, Later(reading, w.guard.timeFloor)))
    case Do(op, now) =>
      && (op.BindWriteBase? || op.MarkGitCommitted?)
      && w' == w.(store := After(w.store, w.guard.lease, Presented(w.store, w.guard, op, now)),
         clock := Later(w.clock, now))
    case Finish(op, now) =>
      && !op.Heartbeat?
      && w' == World(After(w.store, w.guard.lease, Presented(w.store, w.guard, op, now)), w.guard.(closed := true),
                     Later(w.clock, now))
    case Close => w' == w.(guard := w.guard.(closed := true))
    case AdvanceTimeFloor(value) => w' == w.(guard := w.guard.(timeFloor := Later(w.guard.timeFloor, value)))
    case OtherCreate(c) => CreateOutcome(w.store, c) == Ok(true) && w' == w.(store := w.store[c.plan.id := c])
    case OtherClaim(k, owner, configDigest, now, duration) =>
      && ClaimArguments(owner, CONTRACT, configDigest, now, duration) && k in w.store && Claimable(w.store[k], now)
      && w' == w.(store := w.store[k := ClaimedCommand(w.store[k], owner, CONTRACT, configDigest, now, duration)],
                  clock := Later(w.clock, now))
    case OtherOp(lease, op, now) =>
      && (lease.commandID != w.guard.lease.commandID || lease.epoch != w.guard.lease.epoch)
      && w' == w.(store := After(w.store, lease, Perform(w.store, lease, op, now)), clock := Later(w.clock, now))
  }

  /** Leases are stored with the command they name and carry its current epoch. */
  predicate Fences(s: Commands) {
    forall k | k in s ::
      s[k].plan.id == k && (s[k].lease.Some? ==>
        s[k].lease.value.commandID == k && s[k].lease.value.epoch == s[k].leaseEpoch)
  }

  /** A guard opened on a lease the store just granted. */
  ghost predicate Opened(w: World) {
    && Fences(w.store) && Open(w.guard) && w.guard.lease.commandID in w.store
    && w.store[w.guard.lease.commandID].lease == Some(w.guard.lease)
    && w.guard.lease.Valid() && ValidLeaseDuration(w.guard.duration)
  }

  ghost predicate IsGuardRun(ws: seq<World>, events: seq<Event>) {
    && |ws| == |events| + 1 && Opened(ws[0])
    && forall i | 0 <= i < |events| :: Step(ws[i], events[i], ws[i + 1])
  }

  /** The store holds exactly the guard's lease. */
  ghost predicate Held(w: World) {
    w.guard.lease.commandID in w.store && w.store[w.guard.lease.commandID].lease == Some(w.guard.lease)
  }

  /** Another worker has claimed the command since, at an instant when the guard's lease had expired. */
  ghost predicate Overtaken(w: World) {
    && w.guard.lease.commandID in w.store && w.guard.lease.epoch < w.store[w.guard.lease.commandID].leaseEpoch
    && w.guard.lease.until <= w.clock
  }

  ghost predicate GuardInv(w: World) {
    && Fences(w.store) && w.guard.lease.Valid() && ValidLeaseDuration(w.guard.duration)
    && (Open(w.guard) ==> Held(w) || Overtaken(w))
    && (w.guard.lost.Some? ==> w.guard.lease.until <= w.clock)
  }

  lemma PresentedFence(s: Commands, lease: Lease, op: Op, now: Time)
    requires Fences(s) && Perform(s, lease, op, now).Ok?
    ensures var d := Perform(s, lease, op, now).value;
            && lease.commandID in s && d.plan == s[lease.commandID].plan
            && d.leaseEpoch == s[lease.commandID].leaseEpoch == lease.epoch
            && s[lease.commandID].lease == Some(lease) && lease.until > now
            && (op.BindWriteBase? || op.MarkGitCommitted? ==> d.lease == Some(lease))
            && (op.Heartbeat? ==> d.lease == Some(lease.(until := now + op.duration)))
            && (d.lease.Some? ==> d.lease.value.commandID == lease.commandID && d.lease.value.epoch == lease.epoch)
  {
    hide IsCommit, IsFailureCode;
  }

  lemma TickInv(w: World, reading: Time, w': World)
    requires GuardInv(w) && Step(w, Tick(reading), w')
    ensures GuardInv(w')
  {
    hide Perform;
    var at := Later(reading, w.guard.timeFloor);
    var r := Perform(w.store, w.guard.lease, Heartbeat(w.guard.duration), at);
    if Open(w.guard) {
      if r.Ok? {
        PresentedFence(w.store, w.guard.lease, Heartbeat(w.guard.duration), at);
      } else {
        RefusedHeartbeat(w.store, w.guard, at);
      }
    }
  }

  lemma RefusedHeartbeat(s: Commands, g: Guard, at: Time)
    requires at > ZERO_TIME && g.lease.Valid() && ValidLeaseDuration(g.duration)
    requires Perform(s, g.lease, Heartbeat(g.duration), at).Err?
    ensures g.lease.commandID !in s || s[g.lease.commandID].lease != Some(g.lease) || g.lease.until <= at
  {
  }

  lemma OperationInv(w: World, op: Op, now: Time, w': World)
    requires GuardInv(w) && (Step(w, Do(op, now), w') || Step(w, Finish(op, now), w'))
    ensures GuardInv(w')
  {
    hide Perform;
    if Open(w.guard) && Perform(w.store, w.guard.lease, op, now).Ok? {
      PresentedFence(w.store, w.guard.lease, op, now);
    }
  }

  lemma OtherOpInv(w: World, lease: Lease, op: Op, now: Time, w': World)
    requires GuardInv(w) && Step(w, OtherOp(lease, op, now), w')
    ensures GuardInv(w')
  {
    hide Perform;
    if Perform(w.store, lease, op, now).Ok? {
      PresentedFence(w.store, lease, op, now);
    }
  }

  lemma OtherClaimInv(w: World, e: Event, w': World)
    requires GuardInv(w) && e.OtherClaim? && Step(w, e, w')
    ensures GuardInv(w')
  {
    hide ClaimArguments, IsUuid, IsOwner, IsDigest;
    var k := w.guard.lease.commandID;
    if Open(w.guard) && e.k == k && Held(w) {
      assert w.store[k].lease.value.until <= e.now;
    }
  }

  lemma {:induction false} GuardRunInv(ws: seq<World>, events: seq<Event>, n: nat)
    requires IsGuardRun(ws, events) && n < |ws|
    ensures GuardInv(ws[n])
  {
    if n > 0 {
      GuardRunInv(ws, events, n - 1);
      var w, e, w' := ws[n - 1], events[n - 1], ws[n];
      assert Step(w, e, w');
      hide GuardInv;
      match e {
        case Tick(reading) => TickInv(w, reading, w');
        case Do(op, now) => OperationInv(w, op, now, w');
        case Finish(op, now) => OperationInv(w, op, now, w');
        case OtherCreate(_) => QuietInv(w, e, w');
        case OtherClaim(_, _, _, _, _) => OtherClaimInv(w, e, w');
        case OtherOp(lease, op, now) => OtherOpInv(w, lease, op, now, w');
        case Close => QuietInv(w, e, w');
        case AdvanceTimeFloor(_) => QuietInv(w, e, w');
      }
    }
  }

  lemma QuietInv(w: World, e: Event, w': World)
    requires GuardInv(w) && Step(w, e, w') && (e.Close? || e.AdvanceTimeFloor? || e.OtherCreate?)
    ensures GuardInv(w')
  {
    hide DesiredStateModel.Valid, NoLive, NextGeneration;
  }

  /**
   An operation that the guard lets through is handed exactly the lease in the store, or one that had expired and
   was taken over. In the first case the store does not refuse it as lost before the lease expires.
   */
  lemma HandedLease(ws: seq<World>, events: seq<Event>, n: nat)
    requires IsGuardRun(ws, events) && n < |events| && Open(ws[n].guard)
    requires events[n].Do? || events[n].Finish?
    ensures Held(ws[n]) || Overtaken(ws[n])
    ensures Held(ws[n]) && ws[n].guard.lease.until > events[n].now ==>
              Presented(ws[n].store, ws[n].guard, events[n].op, events[n].now) != Err(LeaseLost)
  {
    GuardRunInv(ws, events, n);
  }

  /** The guard reports a loss only when its lease has expired: its own heartbeats never cause one. */
  lemma LossMeansExpiry(ws: seq<World>, events: seq<Event>, n: nat)
    requires IsGuardRun(ws, events) && n < |ws|
    ensures ws[n].guard.lost.Some? ==> ws[n].guard.lease.until <= ws[n].clock
    ensures Open(ws[n].guard) && ws[n].clock < ws[n].guard.lease.until ==> Held(ws[n])
  {
    GuardRunInv(ws, events, n);
  }

  /** Once finished or closed, the guard stays closed, no tick touches the store, and no loss is reported any more. */
  lemma {:induction false} NoHeartbeatAfterFinish(ws: seq<World>, events: seq<Event>, m: nat, n: nat)
    requires IsGuardRun(ws, events) && m < n < |ws| && (events[m].Finish? || events[m].Close?)
    ensures ws[n].guard.closed && ws[n].guard.lost == ws[m].guard.lost && ws[n].guard.lease == ws[m].guard.lease
    ensures n < |events| && events[n].Tick? ==> ws[n + 1].store == ws[n].store && ws[n + 1].guard == ws[n].guard
  {
    hide Perform;
    assert Step(ws[m], events[m], ws[m + 1]);
    if m + 1 < n {
      NoHeartbeatAfterFinish(ws, events, m, n - 1);
      assert Step(ws[n - 1], events[n - 1], ws[n]);
    }
    assert n < |events| ==> Step(ws[n], events[n], ws[n + 1]);
  }
}
