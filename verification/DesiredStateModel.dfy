/** The desired-state command: its record, its validation and how a planner builds one. */
module DesiredStateModel {
  import opened Identifiers
  import opened Naming

  const CONTRACT: string := "argo-desired-state-runtime-v1"
  const MINIMUM_LEASE: int := 30 * SECOND
  const MAXIMUM_LEASE: int := 120 * SECOND
  const MAX_DOCUMENT_BYTES: int := 262_144
  const MAX_INT64: int := 0x7FFF_FFFF_FFFF_FFFF

  /** An ideal SHA-256: distinct contents have distinct digests. */
  datatype ContentDigest = ContentDigest(content: string)
  datatype ETag = NoETag | Strong(digest: ContentDigest)
  datatype Precondition = CreateIfAbsent | MatchETag
  datatype ChartDigestEnforcement = Unavailable | NativeOCI

  datatype CommandState =
    Pending | Claimed | GitCommitted | Verified | BlockedPrerequisite | Failed | Superseded

  datatype Lease = Lease(commandID: string, owner: string, epoch: int, until: Time, contract: string,
      configDigest: string)
  {
    predicate Valid() {
      && IsUuid(commandID) && IsOwner(owner, 16) && epoch > 0 && until != ZERO_TIME
      && contract == CONTRACT && IsDigest(configDigest)
    }
  }

  /** The part of a command fixed at acceptance. */
  datatype Plan = Plan(
    id: string, generation: int, projectID: string, environmentID: string,
    platformBindingID: string, environmentBindingID: string,
    platformTargetRef: string, environmentTargetRef: string,
    environmentRevision: string, environmentGeneration: int,
    path: string, argoNamespace: string, destinationNamespace: string, argoProject: string,
    baseRevision: string, precondition: Precondition, expectedETag: ETag,
    policyDigest: string, catalogDigest: string, runtime: string,
    digestEnforcement: ChartDigestEnforcement,
    appProjectContent: string, content: string, contentSHA256: ContentDigest,
    message: string, createdAt: Time)

  datatype Command = Command(
    plan: Plan, state: CommandState,
    writeBaseRevision: string, writeBaseObservedAt: Option<Time>,
    committedRevision: string, committedAt: Option<Time>, verifiedAt: Option<Time>,
    nextAttemptAt: Time, consecutiveFailures: int, lastFailureCode: string,
    leaseEpoch: int, lease: Option<Lease>, updatedAt: Time, completedAt: Option<Time>)

  function DesiredStatePath(environmentID: string): string {
    "platform/argocd/environments/" + environmentID + ".yaml"
  }

  lemma PathInjective(x: string, y: string)
    requires DesiredStatePath(x) == DesiredStatePath(y)
    ensures x == y
  {
    var p := "platform/argocd/environments/";
    assert DesiredStatePath(x)[|p|..|p| + |x|] == x;
    assert DesiredStatePath(y)[|p|..|p| + |y|] == y;
  }

  // Validation.

  predicate ValidPlan(p: Plan) {
    && IsUuid(p.id) && p.generation > 0 && IsUuid(p.projectID) && IsUuid(p.environmentID)
    && IsUuid(p.platformBindingID) && IsUuid(p.environmentBindingID) && IsCommit(p.environmentRevision)
    && p.environmentGeneration > 0 && p.path == DesiredStatePath(p.environmentID)
    && IsKubeName(p.argoNamespace) && IsKubeName(p.destinationNamespace)
    && (p.argoProject == p.destinationNamespace || p.argoProject == ProjectName(p.projectID))
    && IsCommit(p.baseRevision)
    && (p.precondition == CreateIfAbsent <==> p.expectedETag == NoETag)
    && (p.policyDigest == "" || IsDigest(p.policyDigest)) && IsDigest(p.catalogDigest)
    && 0 < |p.content| <= MAX_DOCUMENT_BYTES && p.contentSHA256 == ContentDigest(p.content)
    && (p.appProjectContent == "" || p.appProjectContent + "---\n" <= p.content)
    && 0 < |p.message| <= 512 && '\0' !in p.message && '\r' !in p.message
    && p.createdAt != ZERO_TIME
  }

  predicate ValidCounters(c: Command) {
    && c.updatedAt != ZERO_TIME && c.nextAttemptAt != ZERO_TIME
    && c.plan.createdAt <= c.updatedAt && c.plan.createdAt <= c.nextAttemptAt
    && 0 <= c.consecutiveFailures <= 30 && c.leaseEpoch >= 0
    && (c.consecutiveFailures == 0 <==> c.lastFailureCode == "")
    && (c.lastFailureCode == "" || IsFailureCode(c.lastFailureCode))
  }

  predicate ValidWriteBase(c: Command) {
    && (c.writeBaseRevision == "" <==> c.writeBaseObservedAt == None)
    && (c.writeBaseRevision != "" ==>
          && IsCommit(c.writeBaseRevision)
          && c.plan.createdAt <= c.writeBaseObservedAt.value <= c.updatedAt)
  }

  predicate ValidLease(c: Command) {
    c.lease.Some? ==>
      && c.lease.value.Valid() && c.lease.value.commandID == c.plan.id
      && c.lease.value.epoch == c.leaseEpoch && c.lease.value.until > c.updatedAt
  }

  predicate Uncommitted(c: Command) {
    c.committedRevision == "" && c.committedAt == None && c.verifiedAt == None
  }

  predicate ValidShape(c: Command) {
    var terminal := c.completedAt.Some?;
    var leased := c.lease.Some?;
    var native := c.plan.digestEnforcement == NativeOCI;
    match c.state
    case Pending => !leased && !terminal && Uncommitted(c) && native
    case Claimed => leased && !terminal && Uncommitted(c) && native
    case GitCommitted =>
      && c.writeBaseRevision != "" && !terminal && IsCommit(c.committedRevision)
      && c.committedAt.Some? && c.plan.createdAt <= c.committedAt.value && c.verifiedAt == None && native
    case Verified =>
      && c.writeBaseRevision != "" && !leased && terminal && IsCommit(c.committedRevision)
      && c.committedAt.Some? && c.verifiedAt.Some? && c.committedAt.value <= c.verifiedAt.value
      && c.completedAt == c.verifiedAt && native
    case BlockedPrerequisite =>
      c.writeBaseRevision == "" && !leased && terminal && Uncommitted(c) && !native
    case Superseded =>
      c.writeBaseRevision == "" && !leased && terminal && Uncommitted(c) && native
    case Failed => !leased && terminal && Uncommitted(c) && native
  }

  predicate Valid(c: Command) {
    ValidPlan(c.plan) && ValidCounters(c) && ValidWriteBase(c) && ValidLease(c) && ValidShape(c)
  }

  predicate Live(state: CommandState) {
    state == Pending || state == Claimed || state == GitCommitted
  }

  // Planning.

  /** Everything a plan takes from durable bindings, the approval and the renderer. */
  datatype Target = Target(
    projectID: string, environmentID: string, platformBindingID: string, environmentBindingID: string,
    platformTargetRef: string, environmentTargetRef: string,
    environmentRevision: string, environmentGeneration: int,
    argoNamespace: string, destinationNamespace: string, argoProject: string,
    platformHead: string, runtime: string, policyDigest: string, catalogDigest: string,
    appProjectContent: string, content: string)

  datatype PlanOutcome = Planned(command: Command) | Unchanged(same: Command) | Rejected

  function PlanMessage(environmentID: string, generation: nat): string {
    "Reconcile Argo desired state for environment " + environmentID + " generation " + Decimal(generation)
  }

  predicate UsablePrevious(previous: Command, target: Target) {
    && Valid(previous) && previous.state == Verified
    && previous.plan.projectID == target.projectID && previous.plan.environmentID == target.environmentID
    && previous.plan.platformBindingID == target.platformBindingID
    && previous.plan.environmentBindingID == target.environmentBindingID
    && previous.plan.generation < MAX_INT64
  }

  function NewCommand(id: string, target: Target, previous: Option<Command>, now: Time): (r: PlanOutcome)
  {
    if previous.Some? && !UsablePrevious(previous.value, target) then Rejected
    else
      var generation := if previous.Some? then previous.value.plan.generation + 1 else 1;
      var plan := Plan(
        id, generation, target.projectID, target.environmentID,
        target.platformBindingID, target.environmentBindingID,
        target.platformTargetRef, target.environmentTargetRef,
        target.environmentRevision, target.environmentGeneration,
        DesiredStatePath(target.environmentID), target.argoNamespace, target.destinationNamespace, target.argoProject,
        target.platformHead,
        if previous.Some? then MatchETag else CreateIfAbsent,
        if previous.Some? then Strong(previous.value.plan.contentSHA256) else NoETag,
        target.policyDigest, target.catalogDigest, target.runtime, NativeOCI,
        target.appProjectContent, target.content, ContentDigest(target.content),
        PlanMessage(target.environmentID, generation), now);
      var command := Command(plan, Pending, "", None, "", None, None, now, 0, "", 0, None, now, None);
      if !Valid(command) then Rejected
      else if previous.Some? && previous.value.plan.contentSHA256 == plan.contentSHA256 then Unchanged(command)
      else Planned(command)
  }

  /** The generation a materializer finally uses: one past the latest command of the environment. */
  function Renumbered(command: Command, latest: Option<Command>): (r: PlanOutcome)
    requires Valid(command)
  {
    if latest == None then Planned(command)
    else
      var l := latest.value.plan;
      if l.environmentID != command.plan.environmentID || l.projectID != command.plan.projectID
         || l.generation < 1 || l.generation == MAX_INT64 then Rejected
      else if command.plan.generation <= l.generation then
        var renumbered := command.(plan := command.plan.(
          generation := l.generation + 1,
          message := PlanMessage(command.plan.environmentID, l.generation + 1)));
        if Valid(renumbered) then Planned(renumbered) else Rejected
      else Planned(command)
  }
}
