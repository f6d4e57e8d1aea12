/**
 The desired-state protocol as a state machine: planners, workers and foreign writers over the command store and
 the protected branches. Every worker may crash, be delayed past its lease or lose the reply of an effect.
 */
module DesiredStateProtocol {
  import opened Identifiers
  import opened DesiredStateModel
  import opened DesiredStateStore
  import opened DesiredStateGit

  datatype WriteError =
    | ProjectionSuperseded | WriteNotFound | ProviderMismatch | MissingRef
    | Diverged | ConflictError | InvalidError | Transient

  predicate IsPermanent(e: WriteError) {
    e == InvalidError || e == ConflictError || e == ProviderMismatch || e == Diverged || e == MissingRef
  }

  function FailureCode(e: WriteError): string {
    match e
    case ProjectionSuperseded => "projection-superseded"
    case ProviderMismatch => "provider-head-mismatch"
    case MissingRef => "missing-ref"
    case Diverged => "binding-diverged"
    case ConflictError => "stale-git-base"
    case WriteNotFound => "stale-git-base"
    case InvalidError => "invalid-command"
    case Transient => "git-write-transient"
  }

  function Backoff(failures: int): int {
    SECOND * Pow2(if failures < 0 then 0 else if failures > 8 then 8 else failures)
  }

  predicate SameFence(a: Lease, b: Lease) {
    a.commandID == b.commandID && a.owner == b.owner && a.epoch == b.epoch
    && a.contract == b.contract && a.configDigest == b.configDigest
  }

  /**
   Where a worker is inside one pass over a claimed command. `command` is its copy of the stored command,
   `view` the number of commits of the branch it prepared, `expected` the provider head it must confirm.
   */
  datatype Phase =
    | Granted
    | Loaded(command: Command)
    | HeadSeen(command: Command, view: int)
    | Ready(command: Command, view: int)
    | Pushing(command: Command, view: int)
    | Landed(command: Command, revision: string, expected: string)
    | Acknowledged(command: Command, expected: string)
    | Confirmed(command: Command)
    | Erred(error: WriteError)
    | Deciding(current: Command, error: WriteError)

  /** A worker pass: the lease it currently presents and its phase. */
  datatype Thread = Thread(lease: Lease, phase: Phase)

  /** What a planner read: the latest and the latest verified command of an environment, empty for none. */
  datatype Snapshot = Snapshot(environmentID: string, latestID: string, previousID: string)

  type Repos = map<string, History>

  /** `fenced` remembers, for each landing under an active lease, that lease's epoch. */
  datatype State = State(
    store: Commands, repos: Repos, clock: Time,
    threads: map<nat, Thread>, snapshots: set<Snapshot>, fenced: map<string, int>)

  datatype Label =
    | PlanSnapshot(snapshot: Snapshot)
    | PlanCreate(source: Snapshot, id: string, target: Target, createdAt: Time)
    | ForeignPush(binding: string, foreign: GitCommit)
    | Claim(t: nat, id: string, owner: string, configDigest: string, duration: int)
    | Load(t: nat)
    | SeeHead(t: nat)
    | Interrupt(t: nat, error: WriteError)
    | Bind(t: nat, observedAt: Time, replied: bool)
    | Resume(t: nat)
    | Route(t: nat, search: Search)
    | Push(t: nat, commitID: string, replied: bool)
    | RejectPush(t: nat)
    | Acknowledge(t: nat, replied: bool)
    | Confirm(t: nat)
    | Complete(t: nat, replied: bool)
    | Decide(t: nat)
    | Settle(t: nat)
    | Beat(t: nat, duration: int, replied: bool)
    | Crash(t: nat)

  // Helpers.

  function To(s: State, t: nat, phase: Phase): State
    requires t in s.threads
  {
    s.(threads := s.threads[t := s.threads[t].(phase := phase)])
  }

  function Without(s: State, t: nat): State {
    s.(threads := s.threads - {t})
  }

  /** The branch a command is written to exists and has a head. */
  predicate Branch(repos: Repos, c: Command) {
    c.plan.platformBindingID in repos && repos[c.plan.platformBindingID] != []
  }

  function BranchOf(repos: Repos, c: Command): History
    requires Branch(repos, c)
  {
    repos[c.plan.platformBindingID]
  }

  /** The prepared repository of a worker. */
  function Prepared(repos: Repos, c: Command, view: int): History
    requires Sees(repos, c, view)
  {
    BranchOf(repos, c)[..view]
  }

  predicate Sees(repos: Repos, c: Command, view: int) {
    Branch(repos, c) && 0 < view <= |BranchOf(repos, c)|
  }

  // Planning.

  ghost predicate Latest(s: Commands, environmentID: string, id: string) {
    if id == "" then forall k | k in s :: s[k].plan.environmentID != environmentID
    else
      && id in s && s[id].plan.environmentID == environmentID
      && forall k | k in s && s[k].plan.environmentID == environmentID :: s[k].plan.generation <= s[id].plan.generation
  }

  ghost predicate LatestVerified(s: Commands, environmentID: string, id: string) {
    if id == "" then forall k | k in s && s[k].plan.environmentID == environmentID :: s[k].state != Verified
    else
      && id in s && s[id].plan.environmentID == environmentID && s[id].state == Verified
      && forall k | k in s && s[k].plan.environmentID == environmentID && s[k].state == Verified ::
           s[k].plan.generation <= s[id].plan.generation
  }

  /** The planner's query: only environments without a live command are candidates. */
  ghost predicate Observes(s: Commands, p: Snapshot) {
    NoLive(s, p.environmentID) && Latest(s, p.environmentID, p.latestID)
      && LatestVerified(s, p.environmentID, p.previousID)
  }

  /** The command a materializer submits for a snapshot. */
  function Materialized(s: Commands, p: Snapshot, id: string, target: Target, createdAt: Time): PlanOutcome {
    if target.environmentID != p.environmentID then Rejected
    else if p.previousID != "" && (p.previousID !in s || s[p.previousID].state != Verified) then Rejected
    else if p.latestID != "" && p.latestID !in s then Rejected
    else
      var planned := NewCommand(id, target, if p.previousID == "" then None else Some(s[p.previousID]), createdAt);
      if planned.Planned? then Renumbered(planned.command, if p.latestID == "" then None else Some(s[p.latestID]))
      else planned
  }

  ghost predicate PlanCreateStep(s: State, p: Snapshot, id: string, target: Target, createdAt: Time, s': State) {
    && p in s.snapshots && ZERO_TIME < createdAt <= s.clock
    && var r := Materialized(s.store, p, id, target, createdAt);
       && r.Planned? && CreateOutcome(s.store, r.command) == Ok(true)
       && s' == s.(store := s.store[id := r.command])
  }

  /** Someone else advances a branch; such commits never carry a command's operation trailer. */
  ghost predicate ForeignPushStep(s: State, b: string, c: GitCommit, s': State) {
    && b in s.repos && s.repos[b] != [] && c.operation == "" && !HasBefore(s.repos[b], |s.repos[b]|, c.id)
    && s' == s.(repos := s.repos[b := s.repos[b] + [c]])
  }

  // One worker pass.

  ghost predicate ClaimStep(s: State, t: nat, k: string, owner: string, configDigest: string, duration: int,
      s': State) {
    && t !in s.threads && ClaimArguments(owner, CONTRACT, configDigest, s.clock, duration)
    && FirstEligible(s.store, k, s.clock)
    && var c := ClaimedCommand(s.store[k], owner, CONTRACT, configDigest, s.clock, duration);
       s' == s.(store := s.store[k := c], threads := s.threads[t := Thread(c.lease.value, Granted)])
  }

  ghost predicate LoadStep(s: State, t: nat, s': State) {
    && t in s.threads && s.threads[t].phase.Granted?
    && var lease := s.threads[t].lease;
       && lease.commandID in s.store
       && if ActiveLease(s.store[lease.commandID], lease, s.clock)
             && (s.store[lease.commandID].state == Claimed || s.store[lease.commandID].state == GitCommitted)
          then s' == To(s, t, Loaded(s.store[lease.commandID]))
          else s' == Without(s, t)
  }

  ghost predicate SeeHeadStep(s: State, t: nat, s': State) {
    && t in s.threads && s.threads[t].phase.Loaded?
    && var c := s.threads[t].phase.command;
       Branch(s.repos, c) && s' == To(s, t, HeadSeen(c, |BranchOf(s.repos, c)|))
  }

  /** A failed gate, binding, Git or store call. Supersession is only reported before a write base is bound. */
  ghost predicate InterruptStep(s: State, t: nat, e: WriteError, s': State) {
    && t in s.threads && e != WriteNotFound
    && var p := s.threads[t].phase;
       && !p.Erred? && !p.Deciding?
       && (e == ProjectionSuperseded ==> p.HeadSeen? && p.command.writeBaseRevision == "")
       && s' == To(s, t, Erred(e))
  }

  /** An effect whose reply may be lost leaves the worker with a transient error. */
  function Replied(replied: bool, next: Phase): Phase {
    if replied then next else Erred(Transient)
  }

  ghost predicate BindStep(s: State, t: nat, observedAt: Time, replied: bool, s': State) {
    && t in s.threads && s.threads[t].phase.HeadSeen?
    && var HeadSeen(c, view) := s.threads[t].phase;
       && c.writeBaseRevision == "" && c.state == Claimed && Sees(s.repos, c, view)
       && var h := Prepared(s.repos, c, view);
          && HasBefore(h, view, c.plan.baseRevision) && PreconditionHolds(HeadOf(h).tree, CommandMutation(c))
          && var lease := s.threads[t].lease;
             var r := Perform(s.store, lease, BindWriteBase(HeadOf(h).id, observedAt), s.clock);
             && r.Ok?
             && s' == To(s, t, Replied(replied, Ready(r.value, view))).(store := After(s.store, lease, r))
  }

  ghost predicate ResumeStep(s: State, t: nat, s': State) {
    && t in s.threads && s.threads[t].phase.HeadSeen?
    && var HeadSeen(c, view) := s.threads[t].phase;
       && c.writeBaseRevision != "" && Sees(s.repos, c, view)
       && HasBefore(Prepared(s.repos, c, view), view, c.writeBaseRevision)
       && s' == To(s, t, Ready(c, view))
  }

  /** After the write base is certain: finish an acknowledged commit, look for an unacknowledged one, or push. */
  ghost predicate RouteStep(s: State, t: nat, search: Search, s': State) {
    && t in s.threads && s.threads[t].phase.Ready?
    && var Ready(c, view) := s.threads[t].phase;
       && Sees(s.repos, c, view)
       && var h, m := Prepared(s.repos, c, view), CommandMutation(c);
          var intact := HoldsContent(HeadOf(h).tree, c.plan.path, c.plan.content);
          && SearchAnswer(h, m, search) && search != Unusable
          && s' == To(s, t,
               if c.state == GitCommitted then
                 if search == Found(c.committedRevision) && intact then Acknowledged(c, HeadOf(h).id)
                   else Erred(ConflictError)
               else if HeadOf(h).id != c.writeBaseRevision then
                 match search
                 case Found(revision) => if intact then Landed(c, revision, HeadOf(h).id) else Erred(ConflictError)
                 case _ => Erred(WriteNotFound)
               else if PreconditionHolds(HeadOf(h).tree, m) then Pushing(c, view)
               else Erred(ConflictError))
  }

  /** The push is a fast-forward: it lands only while the branch head is still the write base. */
  ghost predicate PushStep(s: State, t: nat, commitID: string, replied: bool, s': State) {
    && t in s.threads && s.threads[t].phase.Pushing?
    && var Pushing(c, view) := s.threads[t].phase;
       && Branch(s.repos, c) && IsCommit(commitID)
       && var h, m := BranchOf(s.repos, c), CommandMutation(c);
          var lease := s.threads[t].lease;
          && HeadOf(h).id == m.baseRevision && !HasBefore(h, |h|, commitID)
          && c.plan.id in s.store
          && s' == To(s, t, Replied(replied, Landed(c, commitID, commitID))).(
               repos := s.repos[c.plan.platformBindingID :=
                 h + [GitCommit(commitID, m.operationID, Mutated(HeadOf(h).tree, m))]],
               fenced := if ActiveLease(s.store[c.plan.id], lease, s.clock)
                         then s.fenced[c.plan.id := lease.epoch] else s.fenced)
  }

  /** The push was refused before it was sent: the head moved. */
  ghost predicate RejectPushStep(s: State, t: nat, s': State) {
    && t in s.threads && s.threads[t].phase.Pushing?
    && var c := s.threads[t].phase.command;
       && Branch(s.repos, c) && HeadOf(BranchOf(s.repos, c)).id != CommandMutation(c).baseRevision
       && s' == To(s, t, Erred(WriteNotFound))
  }

  ghost predicate AcknowledgeStep(s: State, t: nat, replied: bool, s': State) {
    && t in s.threads && s.threads[t].phase.Landed?
    && var Landed(c, revision, expected) := s.threads[t].phase;
       var lease := s.threads[t].lease;
       var r := Perform(s.store, lease, MarkGitCommitted(revision), s.clock);
       && r.Ok?
       && s' == To(s, t, Replied(replied, Acknowledged(r.value, expected))).(store := After(s.store, lease, r))
  }

  ghost predicate ConfirmStep(s: State, t: nat, s': State) {
    && t in s.threads && s.threads[t].phase.Acknowledged?
    && var Acknowledged(c, expected) := s.threads[t].phase;
       && Branch(s.repos, c)
       && s' == To(s, t, if HeadOf(BranchOf(s.repos, c)).id == expected then Confirmed(c) else Erred(ProviderMismatch))
  }

  ghost predicate CompleteStep(s: State, t: nat, replied: bool, s': State) {
    && t in s.threads && s.threads[t].phase.Confirmed?
    && var lease := s.threads[t].lease;
       var r := Perform(s.store, lease, CompleteVerified(s.threads[t].phase.command.committedRevision), s.clock);
       && r.Ok?
       && s' == (if replied then Without(s, t) else To(s, t, Erred(Transient))).(store := After(s.store, lease, r))
  }

  /** After an error: read the command back and go on only if the lease, perhaps extended, is still this worker's. */
  ghost predicate DecideStep(s: State, t: nat, s': State) {
    && t in s.threads && s.threads[t].phase.Erred?
    && var thread := s.threads[t];
       && thread.lease.commandID in s.store
       && var current := s.store[thread.lease.commandID];
          if current.lease.Some? && SameFence(current.lease.value, thread.lease) && current.lease.value.until > s.clock
          then s' == s.(threads := s.threads[t := Thread(current.lease.value, Deciding(current, thread.phase.error))])
          else s' == Without(s, t)
  }

  /** What a failed pass does with its command: retire it, fail it or retry it later. */
  function Disposition(current: Command, e: WriteError, now: Time): Op {
    if current.state == Claimed && current.writeBaseRevision == "" && e == ProjectionSuperseded then Supersede
    else if current.state == Claimed && ((current.writeBaseRevision == "" && IsPermanent(e)) || e == WriteNotFound) then
      Fail(FailureCode(e))
    else Retry(FailureCode(e), now + Backoff(current.consecutiveFailures))
  }

  ghost predicate SettleStep(s: State, t: nat, s': State) {
    && t in s.threads && s.threads[t].phase.Deciding?
    && var Deciding(current, e) := s.threads[t].phase;
       var lease := s.threads[t].lease;
       var r := Perform(s.store, lease, Disposition(current, e, s.clock), s.clock);
       s' == Without(s, t).(store := After(s.store, lease, r))
  }

  /** The lease guard extends the lease between loading the command and finishing with it. */
  ghost predicate BeatStep(s: State, t: nat, duration: int, replied: bool, s': State) {
    && t in s.threads
    && var thread := s.threads[t];
       && !thread.phase.Granted? && !thread.phase.Erred? && !thread.phase.Deciding?
       && var r := Perform(s.store, thread.lease, Heartbeat(duration), s.clock);
          && r.Ok?
          && s' == (if replied then s.(threads := s.threads[t := thread.(lease := r.value.lease.value)])
             else Without(s, t)).(
                      store := After(s.store, thread.lease, r))
  }

  /** One step at the state's own clock. */
  ghost predicate Acts(s: State, l: Label, s': State) {
    match l
    case PlanSnapshot(p) => Observes(s.store, p) && s' == s.(snapshots := s.snapshots + {p})
    case PlanCreate(p, id, target, createdAt) => PlanCreateStep(s, p, id, target, createdAt, s')
    case ForeignPush(b, c) => ForeignPushStep(s, b, c, s')
    case Claim(t, k, owner, configDigest, duration) => ClaimStep(s, t, k, owner, configDigest, duration, s')
    case Load(t) => LoadStep(s, t, s')
    case SeeHead(t) => SeeHeadStep(s, t, s')
    case Interrupt(t, e) => InterruptStep(s, t, e, s')
    case Bind(t, observedAt, replied) => BindStep(s, t, observedAt, replied, s')
    case Resume(t) => ResumeStep(s, t, s')
    case Route(t, search) => RouteStep(s, t, search, s')
    case Push(t, commitID, replied) => PushStep(s, t, commitID, replied, s')
    case RejectPush(t) => RejectPushStep(s, t, s')
    case Acknowledge(t, replied) => AcknowledgeStep(s, t, replied, s')
    case Confirm(t) => ConfirmStep(s, t, s')
    case Complete(t, replied) => CompleteStep(s, t, replied, s')
    case Decide(t) => DecideStep(s, t, s')
    case Settle(t) => SettleStep(s, t, s')
    case Beat(t, duration, replied) => BeatStep(s, t, duration, replied, s')
    case Crash(t) => t in s.threads && s' == Without(s, t)
  }

  /** Time never runs backwards: a step happens at some instant no earlier than the clock. */
  ghost predicate Next(s: State, l: Label, now: Time, s': State) {
    now >= s.clock && Acts(s.(clock := now), l, s')
  }

  ghost predicate Init(s: State) {
    && s.store == map[] && s.threads == map[] && s.snapshots == {} && s.fenced == map[] && s.clock > ZERO_TIME
    && forall b | b in s.repos ::
         s.repos[b] != [] && UniqueIds(s.repos[b]) && forall i | 0 <= i < |s.repos[b]| :: s.repos[b][i].operation == ""
  }

  datatype Event = Event(action: Label, now: Time)

  /** A run: `states[0]` is initial and each event leads from one state to the next. */
  ghost predicate IsRun(states: seq<State>, events: seq<Event>) {
    && |states| == |events| + 1 && Init(states[0])
    && forall i | 0 <= i < |events| :: Next(states[i], events[i].action, events[i].now, states[i + 1])
  }
}
