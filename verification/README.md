# Kuberploy: verified models

Kuberploy turns deployment requests into commits on protected Git branches, watches Argo CD apply them, and lets
users edit application configuration. This project models the parts of it whose correctness is hardest to see from
the code, as executable Dafny classes, functions and state machines, and proves what the system relies on.

**Desired state** (`DesiredState*.dfy`, `LeaseGuard.dfy`). A planner stores one command per environment. Workers claim
commands under epoch-numbered leases, bind a write base once, push one commit, acknowledge it and complete the command.
`DesiredStateStore` is the in-memory store as a class, each method proved against a function of the stored commands.
`DesiredStateProtocol` is the whole protocol as a state machine over the store, the branches, the clock, the planners'
snapshots and any number of workers. Workers may stop at any point, lose the reply of any effect, or wake up long after
their lease has expired; other people push to the same branches. `DesiredStateSafety`, `DesiredStateSteps` and
`DesiredStateRuns` prove one invariant of every reachable state, and `DesiredStateTheorems` draws the guarantees from it.
`DesiredStateLateLanding` builds a run that shows why safe abandonment needs its condition.

**Observation** (`ObservationStore.dfy`, `ObservationRuns.dfy`, `ObservationPoll.dfy`). One namespace lease schedules
polling, and `nextPollAt` doubles as a wake flag. The model proves that encoding against a scheduler with an explicit
flag, and the poller against an arbitrary cluster and a store that others change beside it.

**AppConfig** (`JsonPointer.dfy`, `JsonPatch.dfy`, `JsonCells.dfy`, `JsonPatchInPlace.dfy`, `JsonDiff.dfy`,
`JsonNumbers.dfy`, `EditableFields.dfy`, `AutoDeployIntent.dfy`). JSON Pointer (RFC 6901), the operations add, replace and remove of JSON
Patch (sections 4.1 to 4.3 of RFC 6902), the structural diff, the locked-field check, numbers that pass through
binary64, and the canonical auto-deploy intent.

**Auto-deploy runs** (`AutoDeployRuns.dfy`, `AutoDeployProtocol.dfy`, `AutoDeployProgress.dfy`). A table of leased runs
with at most twenty attempts, policies that are revised meanwhile, and controllers that drive a pipeline idempotent by
key; when a run can still change, and when the queue is blocked.

**Loops** (`ManifestRendering.dfy`, `RepositoryCredentials.dfy`). Order-independent manifest elements and the
reconciliation of repository credentials.

`Identifiers`, `Naming` and `Sorting` hold what the others share.

## Conventions and assumptions

- Instants are integers and zero is the zero instant. Text is a sequence of characters.
- A SHA-256 digest is a free constructor, so distinct contents have distinct digests.
- A branch is an append-only list of commits with unique identifiers. A push succeeds only while the head is still the
  mutation's base. Commits of other people never carry a command's operation trailer.
- Instants presented to the desired-state store, to the observation runtime and to the run table never decrease over a
  run. The lease guard needs no such assumption.
- A claim of the run table skips the rows that concurrent transactions have locked; which rows those are is part of the
  claim's event.
- Whole numbers that pass through binary64 are rounded to the nearest value, ties to even, and lie in its range;
  distinct values are written as distinct texts. What becomes of fractions, exponents and signs is a parameter.
- What other workers make of the observation store between two puts of a poll is an arbitrary function; only
  `ObservedIsStored` asks that, where the poll was, they let stored observations progress. Any series of puts into a
  store as every run leaves it does (`PuttingIsProgress`).
- Decoded documents and operation values share no memory with each other; how much room a grown array gets is a
  parameter.
- Network clients, catalogs, resolvers, clocks and schema validation are parameters.

## Findings

- A push that lands after its lease was taken over can leave a failed command with its commit in history
  (`FailedCommandCanLand`). An abandoned command has a commit exactly when some worker pushed it without its active
  lease (`AbandonedLanding`); one that landed under its lease is never abandoned (`LandedNeverAbandoned`).
- The locked-field check looks at no more than 256 differences. It accepts an edit that changes a locked field exactly
  when there are more than 256 differences, the first 256 are editable and a later one is not (`LockedFieldSoundness`,
  `AcceptedEdit`). 128 annotations and 128 labels added to a deployment override, with a changed project, are such an
  edit (`CappedEdit`).
- A run whose controller is lost on the twentieth attempt stays in processing for ever (`LastAttemptStrands`), and a
  pending run whose policy is revised stays pending for ever (`RevisionStrands`). `CanChange` says exactly when a run
  can still change. The second kind also blocks the queue: no run behind it is claimed unless a concurrent transaction
  happens to hold its row (`ClaimsPassBy`, `QueueIsBlocked`).
- Binding dependencies decodes the intent without keeping number texts. Two intents that differ only in the number
  9007199254740992 or 9007199254740993 are bound to the same bytes (`LargeNumbersCollide`). A bound intent determines its
  intent exactly when none of its numbers is encoded like another text (`BoundDetermines`); among whole numbers these
  are the ones below 2^53, and those between 2^53 and 2^54 that leave 2 when divided by 4 (`BoundDeterminesWhole`).
  That a number survives unchanged is not enough: 9007199254740992 does.
- The pointer parser accepts texts that section 3 of RFC 6901 excludes (`AcceptsMoreThanTheGrammar`), and exactly which
  (`AcceptedExactly`, `GrammarExactly`). Printing undoes parsing exactly on the texts the section allows
  (`PrintParse`).
- The store alone does not check that a commit is acknowledged only after a write base was bound: every such
  acknowledgement of a claimed command is accepted and leaves it invalid (`UnboundAcknowledgement`), and there is a valid
  command to which that happens (`AcknowledgedUnbound`). `PerformKeepsValid` shows this is the one transition that needs
  its caller's order.

## Model

| member | source | states |
|---|---|---|
| `DesiredStateTheorems.ExactlyOnceLanding` | internal/argo/desired_state_writer.go:175-248 | In every state of every run, all branches together hold at most one commit per command, and each acknowledged or verified command is on its branch, at its recorded revision, with its content |
| `DesiredStateTheorems.LinearHistory` | internal/argo/desired_state_writer.go:176-211 | On each branch the commits of an environment appear in strictly increasing generation order |
| `DesiredStateTheorems.LandsOnVerifiedImage` | internal/argo/desired_state_writer.go:250-259 | Just before any push lands, the branch head holds the content of the latest verified command, or nothing at the path if none was verified |
| `DesiredStateTheorems.StaleSnapshotRefused` | internal/argo/production_materializer_postgres.go:200-250 | If any command of the environment was created after a planner took its snapshot, what it plans from that snapshot is not stored |
| `DesiredStateTheorems.LandedByPush` | internal/argo/desired_state_writer.go:207-248 | In every state of every run, some branch holds a commit of a command exactly when some worker leasing it pushed earlier |
| `DesiredStateTheorems.LandedNeverAbandoned` | internal/argo/desired_state_runtime.go:72-116 | A command that a worker pushed while holding its active lease is never failed or superseded, in any later state |
| `DesiredStateTheorems.AbandonedLanding` | internal/argo/desired_state_runtime.go:72-116 | A failed or superseded command has a commit on some branch if and only if a worker leasing it pushed without its active lease |
| `DesiredStateTheorems.CommittedOnlyVerifies` | internal/argo/desired_state_memory.go:215-294 | An acknowledged command can only stay so or become verified |
| `DesiredStateLateLanding.FailedCommandCanLand` | internal/argo/desired_state_writer.go:207-220 | There is a run, ending with a late push and a refused one, that leaves a failed command with its commit on the branch |
| `DesiredStateTheorems.LeaseExclusion` | internal/argo/desired_state_memory.go:304-322 | At every instant at most one command per platform binding holds an unexpired lease |
| `DesiredStateTheorems.EpochsStrictlyIncrease` | internal/argo/desired_state_memory.go:110-146 | Of two claims of a command in a run, whatever happens in between, the later has the higher epoch |
| `DesiredStateTheorems.OldEpochIsFenced` | internal/argo/desired_state_memory.go:320-322 | A lease older than the command's epoch is refused by every transition, in every later state, at every instant |
| `DesiredStateTheorems.ReachableStore` | internal/argo/desired_state_model.go:210-283 | Every stored command is always valid; generations of an environment are contiguous from one, and only the highest can be live |
| `DesiredStateTheorems.NeverRewritten` | internal/argo/desired_state_memory.go:165-294 | Plans, and once set write base and committed revision, never change; terminal commands are frozen; epochs never fall |
| `DesiredStateRuns.RunInv` | internal/argo/desired_state_writer.go:119-248 | The protocol invariant over store, branches, workers and snapshots holds in every reachable state |
| `DesiredStateStore.MemoryDesiredStateStore.CreateDesiredState` | internal/argo/desired_state_memory.go:43-76 | Stores a command exactly when it is creatable and new, the environment has no live command and its generation is next; answers a repeated identical creation without storing |
| `DesiredStateStore.MemoryDesiredStateStore.ClaimDesiredState` | internal/argo/desired_state_memory.go:110-146 | Claims the least command by next attempt, creation and identifier among the due ones whose binding nobody else holds; not found exactly when there is none |
| `DesiredStateStore.MemoryDesiredStateStore.SortedCandidates` | internal/argo/desired_state_memory.go:118-130 | The claimable commands, all of them, in claim order |
| `DesiredStateStore.MemoryDesiredStateStore.BindingLeaseHeld` | internal/argo/desired_state_memory.go:311-318 | Whether another command of the binding has an unexpired lease |
| `DesiredStateStore.MemoryDesiredStateStore.HeartbeatDesiredState` | internal/argo/desired_state_memory.go:148-163 | Extends the exact active lease; otherwise the store is unchanged and the error says why |
| `DesiredStateStore.MemoryDesiredStateStore.BindDesiredStateWriteBase` | internal/argo/desired_state_memory.go:165-188 | Binds the write base once; repeating it is accepted only with the same values |
| `DesiredStateStore.MemoryDesiredStateStore.MarkDesiredStateGitCommitted` | internal/argo/desired_state_memory.go:190-213 | Records the commit once; repeating it is accepted only with the same revision |
| `DesiredStateStore.MemoryDesiredStateStore.CompleteDesiredStateVerified` | internal/argo/desired_state_memory.go:215-232 | Verifies an acknowledged commit at its own revision and gives up the lease |
| `DesiredStateStore.MemoryDesiredStateStore.RetryDesiredState` | internal/argo/desired_state_memory.go:234-254 | Gives up the lease with a failure and a next attempt; an acknowledged command stays acknowledged |
| `DesiredStateStore.MemoryDesiredStateStore.SupersedeDesiredState` | internal/argo/desired_state_memory.go:256-274 | Retires a claimed command that has no write base |
| `DesiredStateStore.MemoryDesiredStateStore.FailDesiredState` | internal/argo/desired_state_memory.go:276-294 | Fails a claimed command |
| `DesiredStateStore.PerformKeepsValid` | internal/argo/desired_state_memory.go:190-213 | An accepted transition keeps a command valid if and only if an acknowledgement follows a bound write base |
| `DesiredStateStore.UnboundAcknowledgement` | internal/argo/desired_state_memory.go:190-213 | Acknowledging any commit of a claimed command that has no write base is accepted and leaves it invalid |
| `DesiredStateLateLanding.AcknowledgedUnbound` | internal/argo/desired_state_memory.go:190-213 | A valid claimed command without a write base whose acknowledgement is accepted |
| `DesiredStateStore.PerformAdvances` | internal/argo/desired_state_memory.go:148-294 | An accepted transition rewrites nothing accepted earlier and keeps the epoch |
| `DesiredStateStore.ClaimKeepsValid` | internal/argo/desired_state_memory.go:131-146 | A claim keeps a command valid and rewrites nothing accepted earlier |
| `DesiredStateGit.FindOperationCommit` | internal/gitprojection/repository.go:912-963 | The newest-first search answers found, absent or unusable as the commits after the base say, and unusable beyond 256 commits that touch the path |
| `DesiredStateGit.AnswerIsUnique` | internal/gitprojection/repository.go:912-963 | The commits allow exactly one answer, whatever their number |
| `DesiredStateModel.PathInjective` | internal/argo/desired_state_model.go:69-71 | Environments have distinct protected paths |
| `DesiredStateRuns.StalePlanRefused` | internal/argo/desired_state_memory.go:56-74 | A planned generation that is no longer next is refused |
| `LeaseGuard.DesiredStateLeaseGuard.Tick` | internal/argo/desired_state_writer.go:392-421 | One tick of the heartbeat loop: extends the lease in store and guard, or records the loss; does nothing once lost or closed |
| `LeaseGuard.DesiredStateLeaseGuard.Do` | internal/argo/desired_state_writer.go:433-443 | Presents the guard's current lease, or refuses as lost |
| `LeaseGuard.DesiredStateLeaseGuard.Finish` | internal/argo/desired_state_writer.go:445-470 | Presents the guard's lease once more and closes the guard |
| `LeaseGuard.HandedLease` | internal/argo/desired_state_writer.go:433-470 | In every interleaving an operation let through gets exactly the stored lease, or one that expired and was taken over; in the first case it is not refused as lost before the deadline |
| `LeaseGuard.LossMeansExpiry` | internal/argo/desired_state_writer.go:392-421 | A loss is reported only after the lease's deadline; before it the store holds exactly the guard's lease |
| `LeaseGuard.NoHeartbeatAfterFinish` | internal/argo/desired_state_writer.go:445-489 | After finishing or closing, no tick touches the store and no loss is reported any more |
| `ObservationStore.MemoryObservationStore.PutLocked` | internal/argo/observer.go:37-54 | Stores an observation unless it is older, conflicts in identity, or differs at the same instants |
| `ObservationStore.MemoryObservationStore.ClaimObservation` | internal/argo/observer.go:97-120 | Grants a namespace that is neither held nor early, with the next epoch |
| `ObservationStore.MemoryObservationStore.HeartbeatObservation` | internal/argo/observer.go:122-140 | Extends the lease and moves the next poll along unless a wake moved it back |
| `ObservationStore.MemoryObservationStore.PutObservationFenced` | internal/argo/observer.go:142-153 | Publishes only under the active lease of the observation's namespace |
| `ObservationStore.MemoryObservationStore.FinishObservation` | internal/argo/observer.go:155-178 | Gives up the lease; the next poll is now if a wake came in, else as reported |
| `ObservationStore.MemoryObservationStore.WakeObservation` | internal/argo/observer.go:180-195 | Brings the next poll forward to now |
| `ObservationStore.Backoff` | internal/argo/observation_runtime.go:213-225 | The minimum doubled once per failure after the first, capped at the maximum |
| `ObservationRuns.RefinesScheduler` | internal/argo/observer.go:97-195 | Every accepted operation acts on `nextPollAt` as a scheduler with an explicit wake flag would |
| `ObservationRuns.ClaimGranted` | internal/argo/observer.go:97-120 | A well-formed claim is granted exactly when that scheduler allows it |
| `ObservationRuns.NoLostWake` | internal/argo/observer.go:122-195 | After a wake and until the next grant, a claim is granted as soon as no unexpired lease is held, whatever intervenes |
| `ObservationRuns.NeverStranded` | internal/argo/observer.go:97-140 | While a lease is recorded, a claim is granted exactly from its deadline on |
| `ObservationRuns.StaleLeaseIsFenced` | internal/argo/observer.go:197-200 | A lease from before a later grant can never act on the namespace again |
| `ObservationRuns.ObservationsProgress` | internal/argo/observer.go:37-70 | Over any run stored times never decrease and identity, the UID apart, never changes |
| `ObservationRuns.UidRollover` | internal/argo/observer.go:56-70 | A UID changes only by storing a replacement synced at the desired revision |
| `ObservationPoll.OneGitRevision` | internal/argo/kubernetes_observer.go:266-283 | The one commit a status names, told apart from none and from several |
| `ObservationPoll.ObservationFromApplication` | internal/argo/kubernetes_observer.go:220-264 | Decodes an identified, reconciled application into a valid observation; not ready and undecodable are told apart |
| `ObservationPoll.PollOnce` | internal/argo/kubernetes_observer.go:101-200 | Ends against any cluster and beside any changes to the store; a successful poll lists one consistent snapshot to its end and gives each listed application exactly one explained fate, which the counters tally; an observation is stored only under the active lease |
| `ObservationPoll.FatesAddUp` | internal/argo/kubernetes_observer.go:131-186 | Observed, unknown, stale and not-ready applications add up to all of them |
| `ObservationPoll.ObserveOne` | internal/argo/observation_runtime.go:237-245 | One application, published through the fenced sink: why it is unknown, not ready, stale or observed, and what the store then holds |
| `ObservationPoll.ObservedIsStored` | internal/argo/kubernetes_observer.go:168-186 | If others let stored observations progress beside this poll, the store ends with what the poll observed of an application or something later of the same identity |
| `ObservationPoll.PuttingIsProgress` | internal/argo/observer.go:37-70 | Others that only put observations, any number of any kind between two puts of the poll, let what is stored progress |
| `JsonPointer.ParsePointer` | internal/appconfig/config.go:848-860 | The tokens of a pointer, or nothing when an escape is refused |
| `JsonPointer.Pointer` | internal/appconfig/config.go:862-871 | The pointer of a token list |
| `JsonPointer.ParsePrint` | internal/appconfig/config.go:848-874 | Parsing a printed non-empty token list returns it, for all texts |
| `JsonPointer.PrintInjective` | internal/appconfig/config.go:862-874 | Distinct token lists have distinct pointers |
| `JsonPointer.PrintParse` | internal/appconfig/config.go:848-874 | Pointers of section 3 of RFC 6901 are accepted; of the accepted texts they are exactly those that printing gives back |
| `JsonPointer.AcceptedExactly` | internal/appconfig/config.go:853-857 | The escape check accepts a part if and only if it is a sequence of pieces: a character other than `~`, or `~1`, or `~` with any number of `~1` and then `0` |
| `JsonPointer.PiecesAccepted` | internal/appconfig/config.go:853-859 | Such a part means the values of its pieces, where `~` with k > 0 escaped slashes and a `0` means `~`, k slashes and `0` |
| `JsonPointer.GrammarExactly` | internal/appconfig/config.go:853-857 | A part is a reference token of RFC 6901 if and only if it holds no `/` and is such a sequence with every k zero |
| `JsonPointer.AcceptsMoreThanTheGrammar` | internal/appconfig/config.go:854-856 | Every piece with k > 0 is accepted although it lies outside the grammar; the first is `~~10` |
| `JsonPointer.AtOrBelowIsAncestry` | internal/appconfig/config.go:662-669 | The text-prefix test on printed pointers is exactly token ancestry |
| `JsonPatch.ValueAt` | internal/appconfig/config.go:475-500 | The value a pointer names |
| `JsonPatch.SucceedsOnTarget` | internal/appconfig/config.go:771-846 | An operation succeeds exactly when its target can be located and, unless it adds, exists |
| `JsonPatch.PatchLaw` | internal/appconfig/config.go:771-835 | After a success every location holds the operation's value or what one determined location held before, with array siblings shifted; containers on the way keep their kind |
| `JsonPatchInPlace.Memory.PatchInPlace` | internal/appconfig/config.go:771-835 | Updating shared objects and the arrays behind lists in place gives the document of the value patch, touches nothing the document does not own, and leaves memory as it was when the operation fails |
| `JsonPatchInPlace.Memory.PatchLeafInPlace` | internal/appconfig/config.go:776-807 | The last step of the patch in place: the same for the parent container, object or list |
| `JsonPatchInPlace.Memory.InsertItem` | internal/appconfig/config.go:795-798 | Gives the list with the value inserted, whether its array has room or has to be copied into a larger one |
| `JsonPatchInPlace.Memory.RemoveItem` | internal/appconfig/config.go:801-802 | Gives the list without the item, within the cells the list owned |
| `JsonPatchInPlace.Memory.Decode` | internal/appconfig/config.go:578-584 | A copy of a document in new cells, everything else unchanged |
| `JsonPatchInPlace.Memory.ApplyAll` | internal/appconfig/config.go:585-591 | All operations in order give the patched document in memory, or the first failing one is named; only cells of the document and of the operations change |
| `JsonPatchInPlace.Memory.ApplyToCopy` | internal/appconfig/config.go:574-591 | A change of 1 to 128 operations gives the patched document if and only if no operation fails, and the current document is intact in memory afterwards |
| `JsonCells.Untouched` | internal/appconfig/config.go:577-591 | Changes outside what a document owns do not change it |
| `JsonPatch.ReadBack` | internal/appconfig/config.go:475-500 | Reading back an added or replaced value returns it, except after an append by `-`, which cannot be read back |
| `JsonPatch.AddThenRemove` | internal/appconfig/config.go:771-835 | Removing what was just added restores the document if and only if the target was new |
| `JsonDiff.SortStrings` | internal/appconfig/config.go:887-893 | Sorts in place: ordered, and a permutation |
| `JsonDiff.Compare` | internal/appconfig/config.go:671-707 | The places where two documents differ, in key order, up to the cap |
| `JsonDiff.WalkSound` | internal/appconfig/config.go:674-705 | Every reported place is one where the documents differ |
| `JsonDiff.WalkComplete` | internal/appconfig/config.go:674-705 | Every place where they differ lies at or below a reported one |
| `JsonDiff.Editable` | internal/appconfig/config.go:662-669 | Whether a pointer is at or below an editable one |
| `JsonDiff.LockedFields` | internal/appconfig/config.go:611-619 | Names only reported places that are not editable, at most the bound; none exactly when the edit is accepted |
| `JsonDiff.ChangesInsideMeansAgreement` | internal/appconfig/config.go:671-707 | All differences lie inside the editable subtrees exactly when the documents agree everywhere outside them |
| `JsonDiff.LockedFieldSoundness` | internal/appconfig/config.go:611-619 | With at most 256 differences an edit is accepted exactly when the documents agree outside the editable subtrees; an edit that does not agree is accepted exactly when the first 256 differences are editable and a later one is not |
| `EditableFields.PointersArePrinted` | internal/appconfig/config.go:34-41 | The twenty editable pointers are the printed token lists of the editable subtrees |
| `EditableFields.AcceptedEdit` | internal/appconfig/config.go:611-619 | The same, both directions, for the actual editable pointers |
| `EditableFields.CappedEdit` | internal/appconfig/config.go:698-702 | Whatever else a config holds, adding 256 or more annotations and labels to its deployment override and changing its project is accepted |
| `AutoDeployIntent.CanonicalAutoDeployIntent` | internal/appconfig/autodeploy.go:227-258 | The canonical intent, field by field |
| `AutoDeployIntent.ValidateCanonicalIntentShape` | internal/appconfig/autodeploy.go:260-306 | The shape check, dependency key aside, accepts exactly the fixpoints of the canonicalizer |
| `AutoDeployIntent.ShapeIsFixpoint` | internal/appconfig/autodeploy.go:260-306 | What being a fixpoint means for each field of the spec |
| `AutoDeployIntent.CanonicalIdempotent` | internal/appconfig/autodeploy.go:227-258 | Canonicalizing twice is canonicalizing once |
| `AutoDeployIntent.BoundExact` | internal/appconfig/autodeploy.go:34-57 | Two bound intents are equal exactly when the dependencies are equal and the intents differ at most by rounding of numbers |
| `AutoDeployIntent.BoundDetermines` | internal/appconfig/autodeploy.go:38-41 | Among all intents with number texts of some kind, a bound intent determines its intent if and only if no number in it is encoded like another text of that kind |
| `AutoDeployIntent.BoundDeterminesWhole` | internal/appconfig/autodeploy.go:38-57 | Among all intents of whole numbers, a bound intent determines its intent if and only if every number in it is below 2 to the 53rd, or strictly between 2 to the 53rd and 2 to the 54th and two more than a multiple of four |
| `JsonNumbers.AloneExactly` | internal/appconfig/autodeploy.go:38-41 | No other whole number has the same nearest binary64 value exactly under that condition |
| `JsonNumbers.AloneWhole` | internal/appconfig/autodeploy.go:38-52 | The same for the number texts of a whole document |
| `AutoDeployIntent.LargeNumbersCollide` | internal/appconfig/autodeploy.go:38-41 | 2 to the 53rd and the next number, anywhere in an intent, are bound alike |
| `JsonNumbers.ExactIsFixpoint` | internal/appconfig/autodeploy.go:38-41 | Decoding and encoding keeps a document exactly when it keeps each of its numbers |
| `JsonNumbers.SmallSurvives` | internal/appconfig/autodeploy.go:38-52 | Whole numbers up to 2 to the 53rd keep their text |
| `JsonNumbers.RoundedReplace` | internal/appconfig/autodeploy.go:38-52 | Replacing a number by one that is encoded alike, at any place, cannot be seen afterwards |
| `AutoDeployIntent.RefreshHosts` | internal/appconfig/autodeploy.go:187-198 | Sets the host of every sslip route, or stops when there is no hostname |
| `AutoDeployIntent.IntentStability` | internal/appconfig/autodeploy.go:117-209 | Any sequence of image updates and refreshes leaves the canonical intent unchanged |
| `AutoDeployIntent.PinnedIntentNeverConflicts` | internal/appconfig/autodeploy.go:117-160 | So a pinned intent never becomes a conflict through such updates |
| `AutoDeployIntent.ImageUpdateIsLocal` | internal/appconfig/autodeploy.go:139-159 | An accepted image update names the image exactly and changes nothing outside the delivery |
| `AutoDeployRuns.KeyInjective` | internal/autodeploy/model.go:239-241 | The idempotency key determines policy, revision and attempt |
| `AutoDeployRuns.RunTable.FirstRun` | internal/autodeploy/postgres.go:55-57 | The one due run that precedes every other due and unlocked run, or none when there is none |
| `AutoDeployRuns.RunTable.ClaimNextRun` | internal/autodeploy/postgres.go:45-79 | Claims the first due run that no one has locked; not found exactly when there is none, conflict with an unchanged table exactly when the first one fails the check |
| `AutoDeployRuns.RunTable.HeartbeatRun` | internal/autodeploy/postgres.go:109-126 | Under the guard of owner, epoch and deadline, moves the deadline past both the one presented and now |
| `AutoDeployRuns.RunTable.RetryRun` | internal/autodeploy/postgres.go:128-143 | Back to pending, or failed when the attempts are used up |
| `AutoDeployRuns.RunTable.FailRun` | internal/autodeploy/postgres.go:145-157 | Fails a guarded run |
| `AutoDeployRuns.RunTable.CompleteRun` | internal/autodeploy/postgres.go:159-171 | Records the receipt of a guarded run |
| `AutoDeployProtocol.BoundedClaims` | internal/autodeploy/postgres.go:55-67 | In every run of the system no run is claimed more than twenty times |
| `AutoDeployProtocol.TerminalAbsorbs` | internal/autodeploy/postgres.go:109-171 | A submitted or failed run never changes again |
| `AutoDeployProtocol.StaleLeaseIsFenced` | internal/autodeploy/postgres.go:109-171 | Once a run was claimed again, an older lease can never change it |
| `AutoDeployProtocol.EffectivelyOnce` | internal/autodeploy/controller.go:85-157 | Each pipeline operation belongs to exactly one run, and a submitted run records precisely the operation stored under its key |
| `AutoDeployProtocol.OperationsAreStable` | internal/autodeploy/controller.go:101-108 | Retries and takeovers only replay a stored operation |
| `AutoDeployProgress.CanChange` | internal/autodeploy/postgres.go:55-79 | In every reachable state, some step changes a run if and only if it is not terminal and either has attempts left and its policy still at its revision, or is held by a controller under an unexpired lease; the claim may come while concurrent transactions have other rows locked |
| `AutoDeployProgress.CanChangeUnlocked` | internal/autodeploy/postgres.go:55-79 | The same without locked rows: some step changes a run if and only if no due run precedes it when it is due and its policy is still at its revision, or a controller holds it under an unexpired lease |
| `AutoDeployProgress.StuckForEver` | internal/autodeploy/postgres.go:55-171 | A run that no step can change is the same in every later state |
| `AutoDeployProgress.LastAttemptStrands` | internal/autodeploy/postgres.go:55-67 | There is a run of the system that leaves a run in processing which no step can change |
| `AutoDeployProgress.RevisionStrands` | internal/store/postgres/autodeploy.go:77-133 | Revising a policy leaves its due pending run in a state which no step can change |
| `AutoDeployProgress.UnworkableStays` | internal/autodeploy/postgres.go:71-107 | A due run that fails the check inside the claim stays unchanged, due and failing for ever |
| `AutoDeployProgress.ClaimsPassBy` | internal/autodeploy/postgres.go:55-79 | Every later claim takes a run before it in table order, unless a concurrent transaction has it locked |
| `AutoDeployProgress.QueueIsBlocked` | internal/autodeploy/postgres.go:55-79 | While its row is not locked by others, no pending run behind it is ever claimed or changed |
| `ManifestRendering.RenderApplicationSet` | internal/argo/render.go:216-263 | Succeeds exactly when the target is valid, its template can be built, every application and deployment fits and no identifier repeats, and then gives one element per deployment in order; so both orders succeed or both fail |
| `ManifestRendering.OrderIndependent` | internal/argo/render.go:220-259 | Two element lists of the same deployments, in whatever order they came, are equal |
| `Naming.NamesAreDistinct` | internal/argo/model.go:83-93 | Distinct UUIDs have distinct manifest names |
| `RepositoryCredentials.CredentialNamesAreDistinct` | internal/argo/production_prerequisites.go:37-42 | Distinct bindings have distinct credential names |
| `RepositoryCredentials.Validation` | internal/argo/production_prerequisites.go:54-83 | A binding passes exactly when it is authorized and fresh, or to be revoked |
| `RepositoryCredentials.Classify` | internal/argo/production_prerequisites.go:279-330 | Deletes only bindings to be revoked, and passes exactly when no identifier repeats and no binding is merely stale |
| `RepositoryCredentials.Reconcile` | internal/argo/production_prerequisites.go:273-355 | Applies only authorized fresh bindings and only when none is stale; succeeds exactly when every revocation is confirmed absent, every authorized binding confirmed and the platform binding among them, and then reports exactly the authorized set |

## Left out

- YAML and JSON encoding, schema validation, bounded previews and text diffs of AppConfig.
- Lenient decoding of stored dependency entries: a stored dependency list counts as valid when it is the encoding of one.
- The PostgreSQL stores of commands and observations, their constraints and isolation; the run table is modelled row by row.
- The work inside `FindOperationCommit` on Git objects: history is a list, and merges and rewrites of history do not occur.
- The planner's candidate queue and its retry of blocked candidates (internal/argo/production_materializer_postgres.go:61-168).
- Syntax of runtime locks, Git references and repository bindings; a binding carries its own validity.
- The wiring of one observation pass in `RunOnce` (internal/argo/observation_runtime.go:145-187); its store calls are events of the observation runs.
- Readiness leases of the desired-state worker, its polling loop and its error reports.
- The refresh of Argo objects between acknowledgement and completion, beyond the fact that it may fail.
- The heartbeat goroutine's join at the end of `Finish` and `Close`.
- Release verification, authorization and submission validity of auto-deploy: they are the reasons for which a controller gives up.
- What makes a rendering target valid, the template part of the ApplicationSet manifest and the AppProject: they do not depend on the order of the inputs, and the first two enter as whether they succeed.
- The text of a whole number at or above 10 to the 21st after binary64, and everything about fractions: a parameter of `JsonNumbers`.
- Rollback, access policy, build and bootstrap code.
