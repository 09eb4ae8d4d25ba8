# LoopSkill 4 runtime model

A Dafny model of the LoopSkill 4 runtime: the command kernel, its in-memory and SQLite stores, the plan codec, the
transactional uninstaller, the specification cycle check and the non-Git artifact delta.

- **Kernel** (`Base`, `Records`, `Commands`, `Authority`, `Kernel`, `KernelDraft`). A loop is a snapshot of linked maps
  (goals, effects, attempts, hosts, results, reports, artifacts, reviews, finalizations) that changes only through
  accepted commands. `Kernel` states each reducer as a function; `KernelDraft` runs the reducers in place on a private
  copy, as the program does, and is proved to compute them. The command set is the one of the content role policy;
  `Deliveries` adds the route and delivery commands where storage modes are concerned. Lookup errors that the program
  does not catch are the result `Fault`, apart from protocol rejections.
- **Invariants of every run** (`Transitions`, `PlanProgress`, `EffectCoupling`, `ResultBinding`, `ClosureBacking`,
  `Invariant`, `Runs`, `Safety`, `StorageMode`, `ContentRoute`, `EagerRoute`, `PlanAuthority`, `RepairSchedule`).
  `Transitions` condenses each reducer to what it changes, the four middle modules keep one part of the invariant each,
  and `Runs` closes the induction over arbitrary sequences of accepted and refused commands. No reference is assumed
  fresh: records that the program lets a command overwrite are overwritten here too.
- **Acceptance and provenance** (`Permissions`, `Evidence`, `Steering`, `Closing`, `Acceptance`, `Provenance`). Which
  commands a loop accepts, said of requests, registries and records without the checks and reducers, and what each puts on
  record; then, over runs, for everything that counts as settled, observed, verified, reviewed or closed, the command that
  made it so and the evidence this command had.
- **Stores** (`StoreModel`, `MemoryStore`, `SqliteStore`, `Linearisation`, `CrashRefinement`, `Refinement`, `Identities`,
  `Outbox`, `OutboxRuns`, `Outcomes`, `Claims`, `OpenTransactions`, `AuthorityReload`, `KernelStore`, `KernelAnswers`). Both
  stores are classes over an abstract reducer, and a caller may replace their authority registry between calls; every
  theorem about runs gives each call its own registry. A SQLite transaction is a working copy of the tables, committed or
  dropped at nine crash points. `KernelStore` puts the kernel in for the reducer, `KernelAnswers` says what the result accepts.
- **Plan codec** (`PlanDocuments`, `PlanContents`, `PlanIndexes`), **uninstaller** (`Uninstaller`), **cycle check**
  (`CycleCheck`), **artifact delta** (`ArtifactPaths`, `ArtifactDelta`).
- `Counterexamples`, `RouteWitness`, `RepairWitness` and `StoreCounterexamples` hold concrete runs for claims that the
  code does not meet.

Strings, digests and derived references are values of one type, `Str`: a digest or a reference is a constructor applied
to what it was derived from. Two derived values are therefore equal only when they were derived alike; truncation of
SHA-256 and text that happens to spell a digest are not part of this model.

Where the code departs from what one would expect, the model follows the code:

- `_create_loop` accepts an empty goal id, and both `_stage_external_result` and `_stage_result` accept an empty result
  reference, which they make current in every planned loop; classification then calls the snapshot malformed and the
  loop can never be changed again. `ContentRoute.ContentModeForLife` and `EagerRoute.OldModeForLife` give the exact
  conditions.
- `_prepare_finalization` does not look at the execution state and counts STOPPED goals as finished, so TERMINAL is not
  final and a stopped plan can be finalised as SUCCEEDED. `Safety.SuccessMeansPlanRan` says exactly when the whole plan
  ran.
- The kernel schedules repairs up to ordinal 3 whatever the goal's attempt limit is; the V2 authority selector stops
  below that limit, and the codec derives chains for ordinals 1 and 2 only. `RepairSchedule.ScheduledIsAuthorised` and
  `RepairSchedule.ScheduledIsCodec` give the exact conditions, `RepairWitness.ThirdRepairIsScheduled` a run.
- `SQLiteStore.apply` handles no `PersistenceCorruption`. A payload that cannot be materialised leaves the transaction open
  and the connection unusable until it is reopened; so does any entry of `receipt_refs`, read by the reducer or not, that
  names a receipt which is not registered for the loop or differs from the one stored under its reference. A payload,
  actor, grant or receipt without canonical encoding does the same, because recording its rejection collides with the
  operation row. `OpenTransactions.CorruptionStaysOpen` says exactly when which of this happens, and what it leaves.
- Creating a loop stores every actor and grant its registry has for the loop, and a command the receipts it names, without
  the checks that reading them back makes. One record that fails there makes `verify_integrity` raise, and the store
  cannot be opened without a registry. `AuthorityReload.IntegrityExactly` says exactly which commits keep the check
  passing, `StoreCounterexamples.StrangerBreaksIntegrity` gives a run.
- `content_create_payload` always declares v2 capacity, also for v1 plans.

`dafny verify dfyconfig.toml` checks the project.

## Model

| member | source | states |
|---|---|---|
| `KernelDraft.ReduceCommand` | codex-loop-prompt-architect/scripts/loop_architect/v4_alpha/kernel.py:506-541 | running the checks, then the reducer in place on a private copy, then the revision step gives exactly the reducer function that all run theorems are about and that `Acceptance.CommitExactly` characterises |
| `KernelDraft.Draft.Positions` | codex-loop-prompt-architect/scripts/loop_architect/v4_alpha/kernel.py:957 | the dictionary of positions maps every listed id to its last position in the list and has no other key |
| `KernelDraft.Draft.Reorder` | codex-loop-prompt-architect/scripts/loop_architect/v4_alpha/kernel.py:957-961 | the loop over the goals gives every listed goal its new position and leaves the rest |
| `Acceptance.CommitExactly` | codex-loop-prompt-architect/scripts/loop_architect/v4_alpha/kernel.py:506-541 | at any point of any run a command is committed if and only if it is well formed and sealed, its issuer is permitted to issue it on its subject, what it refers to is there at the expected revisions, the loop meets what this command demands, and the result can be encoded |
| `Acceptance.CommitsExactly` | codex-loop-prompt-architect/scripts/loop_architect/v4_alpha/kernel.py:506-541 | the same of any snapshot with an intact plan |
| `Acceptance.CommitAnswers` | codex-loop-prompt-architect/scripts/loop_architect/v4_alpha/kernel.py:506-541 | a command that is not committed is answered by its first shortcoming: its own defect, authority, references, the reducer, the encoding limit |
| `Acceptance.FirstCommitExactly` | codex-loop-prompt-architect/scripts/loop_architect/v4_alpha/kernel.py:544-896 | a loop is created if and only if the same holds of a CreateLoop command with a complete plan and a strict confirmation; the created snapshot can always be encoded |
| `Acceptance.EventsAreFew` | codex-loop-prompt-architect/scripts/loop_architect/v4_alpha/kernel.py:538-539 | no accepted command announces more than five events, so the limit of sixteen is never met |
| `Permissions.SelectorExactly` | codex-loop-prompt-architect/scripts/loop_architect/v4_alpha/kernel.py:107-214 | on an intact plan a selector admits the loop and its derived finalization if it includes loop scope, and otherwise exactly the references of planned goals and, in V2 plans, of repairs of materialised goals at ordinals from 1 to below the attempt limit; to anything else, or for another plan, it answers AUTHORITY_SCOPE_MISMATCH |
| `Permissions.AuthorityExactly` | codex-loop-prompt-architect/scripts/loop_architect/v4_alpha/kernel.py:217-260 | the authority check passes if and only if the actor is registered under its name, vouched for and bound to the loop, and the grant is this actor's, genuine, vouched for, current and about this loop, command, kind and subject |
| `Permissions.AuthorityAnswers` | codex-loop-prompt-architect/scripts/loop_architect/v4_alpha/kernel.py:217-260 | the authority check answers INVALID_AUTHORITY, AUTHORITY_EXPIRED or AUTHORITY_SCOPE_MISMATCH for the first shortcoming of actor, grant, time and scope |
| `Permissions.ReferencesExactly` | codex-loop-prompt-architect/scripts/loop_architect/v4_alpha/kernel.py:263-305 | the reference check passes if and only if the subject is of its kind and recorded, expected revisions are current ones, and every reference mentioned is known or about to be allocated |
| `Permissions.ReferencesAnswer` | codex-loop-prompt-architect/scripts/loop_architect/v4_alpha/kernel.py:263-305 | the reference check answers a wrong kind, a foreign subject, the first expected revision that is missing or stale, or a foreign binding |
| `Permissions.ReceiptExactly` | codex-loop-prompt-architect/scripts/loop_architect/v4_alpha/kernel.py:308-340 | a receipt is found if and only if it is named, registered, well formed, vouched for, current, and attests the action on the subject, attempt, target and request asked for |
| `Permissions.ReceiptAnswers` | codex-loop-prompt-architect/scripts/loop_architect/v4_alpha/kernel.py:308-340 | without such a receipt the answer is the first of RECEIPT_REQUIRED, the size limit, an untrusted issuer, RECEIPT_EXPIRED and RECEIPT_IDENTITY_MISMATCH |
| `Evidence.ObserveExactly` | codex-loop-prompt-architect/scripts/loop_architect/v4_alpha/kernel.py:1049-1139 | an observation is accepted exactly on a receipt about this very attempt that shows a state: OBSERVED a strict one in any state, UNKNOWN and UNVERIFIABLE only while the attempt is COMMITTED; attempt, effect and host then carry that receipt |
| `Evidence.StageExactly` | codex-loop-prompt-architect/scripts/loop_architect/v4_alpha/kernel.py:1328-1385 | a result is staged exactly for a sighted effect and the one active goal, and recorded as reported |
| `Evidence.AcknowledgeExactly` | codex-loop-prompt-architect/scripts/loop_architect/v4_alpha/kernel.py:1388-1464 | a staged result is acknowledged exactly on a receipt for its artifact; the artifact is verified exactly if the receipt is strict, and then it was captured |
| `Evidence.ChainExactly` | codex-loop-prompt-architect/scripts/loop_architect/v4_alpha/kernel.py:369-418 | the result chain is the current result with the records it names, its host and its goal, each at its revision, and exists exactly when all are there |
| `Evidence.ReviewExactly` | codex-loop-prompt-architect/scripts/loop_architect/v4_alpha/kernel.py:1467-1496 | a review is accepted exactly of an acknowledged result while the chain is complete, and records verdict, reviewer and chain |
| `Evidence.AdvanceExactly` | codex-loop-prompt-architect/scripts/loop_architect/v4_alpha/kernel.py:1499-1725 | a goal advances exactly on a review of an acknowledged result bound to it whose verdict and outcome warrant the disposition (DONE: PASS and PASS; FAILED: a failed result not sent to repair; LIMITATION: such a review; SKIPPED: an optional goal, such a review, and a limited or unverifiable result), if the command also materialises the next goal where one follows; goal, next goal, effect and attempt are as described |
| `Steering.ContextExactly` | codex-loop-prompt-architect/scripts/loop_architect/v4_alpha/kernel.py:421-474 | the context of a human decision shows the loop, its execution, and goal, artifact and review of the one active goal's current chain |
| `Steering.DecisionExactly` | codex-loop-prompt-architect/scripts/loop_architect/v4_alpha/kernel.py:1828-1995 | a decision is accepted exactly on the digest of the current context; to continue, exactly if the current review asks for a repair, the budgets are within one to three and one to two, and the command, unless a budget is spent, allocates nothing or the next repair |
| `Steering.DecisionIsRecorded` | codex-loop-prompt-architect/scripts/loop_architect/v4_alpha/kernel.py:1853-2078 | an accepted decision counts repairs and equal failures of the goal as described, and schedules exactly the next repair chain |
| `Steering.PauseExactly` | codex-loop-prompt-architect/scripts/loop_architect/v4_alpha/kernel.py:2085-2119 | a loop pauses exactly while running and for a reason |
| `Steering.ResumeExactly` | codex-loop-prompt-architect/scripts/loop_architect/v4_alpha/kernel.py:2122-2238 | a paused loop resumes exactly on what its wait asks for: a budget wait an extension that raises a budget within 384 invocations and thirty days and names the budget it extends, a human or time wait evidence of the gate, any other nothing |
| `Steering.StopExactly` | codex-loop-prompt-architect/scripts/loop_architect/v4_alpha/kernel.py:2241-2280 | a live loop with one active goal stops exactly for a reason, and the goal with it |
| `Steering.ReviseExactly` | codex-loop-prompt-architect/scripts/loop_architect/v4_alpha/kernel.py:899-961 | a revision is accepted exactly if it lists the goals of an adaptive plan once each with their slices, moves none up to the active one, is the next and within the allowance; it changes the order and no goal record |
| `Closing.CreateIsAllowed` | codex-loop-prompt-architect/scripts/loop_architect/v4_alpha/kernel.py:544-896 | a loop is created exactly by a confirmed, complete plan whose first chain the command allocates |
| `Closing.CreateIsRecorded` | codex-loop-prompt-architect/scripts/loop_architect/v4_alpha/kernel.py:762-896 | the created loop has the plan of the command, its first goal and the confirmation |
| `Closing.PrepareExactly` | codex-loop-prompt-architect/scripts/loop_architect/v4_alpha/kernel.py:2283-2377 | a finalization is prepared exactly once no goal is active and the reviewed chain supports its disposition, and names that chain |
| `Closing.CloseExactly` | codex-loop-prompt-architect/scripts/loop_architect/v4_alpha/kernel.py:2380-2451 | a loop closes exactly on a readback of its open finalization while the chain has not changed, successfully only on a strict one; closure is strict exactly if the readback is |
| `Closing.StrengthenExactly` | codex-loop-prompt-architect/scripts/loop_architect/v4_alpha/kernel.py:2454-2525 | a cooperative closure becomes strict exactly on a strict readback of its finalization |
| `Provenance.SettledHadEvidence` | codex-loop-prompt-architect/scripts/loop_architect/v4_alpha/kernel.py:1541-1574 | every goal of a reachable snapshot that is DONE, FAILED, limited or SKIPPED was settled by an AdvanceGoal of the run on the evidence this disposition takes |
| `Provenance.DoneWasReviewed` | codex-loop-prompt-architect/scripts/loop_architect/v4_alpha/kernel.py:1467-1574 | for every DONE goal some earlier RecordReview of the run recorded the passing verdict that it was settled on |
| `Provenance.SightedHadEvidence` | codex-loop-prompt-architect/scripts/loop_architect/v4_alpha/kernel.py:1049-1139 | every effect that is no longer merely committed was sighted by a command of the run whose receipt, now on the effect, was about this attempt and showed this state |
| `Provenance.ArtifactsHadEvidence` | codex-loop-prompt-architect/scripts/loop_architect/v4_alpha/kernel.py:1388-1464 | every artifact of a reachable snapshot was registered by an acknowledgement of the run, a verified one on a strict receipt for its content |
| `Provenance.ReviewsHadEvidence` | codex-loop-prompt-architect/scripts/loop_architect/v4_alpha/kernel.py:1467-1496 | every review of a reachable snapshot was recorded by its reviewer, with its verdict, on an acknowledged result |
| `Provenance.FinalizationsHadEvidence` | codex-loop-prompt-architect/scripts/loop_architect/v4_alpha/kernel.py:2283-2377 | every finalization was prepared by the run on a chain that supported its disposition |
| `Provenance.StrictHadEvidence` | codex-loop-prompt-architect/scripts/loop_architect/v4_alpha/kernel.py:2380-2525 | strict closure goes back to a command of the run with a strict readback of its finalization |
| `Provenance.ConclusionHadEvidence` | codex-loop-prompt-architect/scripts/loop_architect/v4_alpha/kernel.py:2283-2451 | a loop that ended otherwise than by being stopped was closed by a finalization that an earlier command had prepared on a chain supporting the disposition |
| `Provenance.CommittedIsPermitted` | codex-loop-prompt-architect/scripts/loop_architect/v4_alpha/kernel.py:506-541 | every command of a run that was committed was permitted and met what it demands |
| `Provenance.TouchesOnly` | codex-loop-prompt-architect/scripts/loop_architect/v4_alpha/kernel.py:1049-2525 | each command leaves every section of the snapshot alone but those named for it: goals, effects, artifacts, reviews, finalizations, conclusion |
| `PlanProgress.CreateEstablishesPlan` | codex-loop-prompt-architect/scripts/loop_architect/v4_alpha/kernel.py:544-896 | a created loop satisfies the plan invariant: its goals are exactly those at orders 0 to the active index, under derived references |
| `PlanProgress.AdvanceKeepsPlan` | codex-loop-prompt-architect/scripts/loop_architect/v4_alpha/kernel.py:1499-1725 | an accepted advance keeps the plan invariant, concerns the goal at the active index, and changes no goal that had left ACTIVE |
| `PlanProgress.StopKeepsPlan` | codex-loop-prompt-architect/scripts/loop_architect/v4_alpha/kernel.py:2241-2280 | a stop keeps the plan invariant and moves the active goal from ACTIVE to STOPPED |
| `PlanProgress.ReviseKeepsPlan` | codex-loop-prompt-architect/scripts/loop_architect/v4_alpha/kernel.py:911-960 | an accepted revision changes no goal record at all and keeps the plan invariant under the permuted ids |
| `PlanProgress.RepairKeepsPlan` | codex-loop-prompt-architect/scripts/loop_architect/v4_alpha/kernel.py:1938-2009 | a scheduled repair keeps the plan invariant; only the active goal gets another chain |
| `PlanProgress.DecisionKeepsPlan` | codex-loop-prompt-architect/scripts/loop_architect/v4_alpha/kernel.py:1828-2082 | every accepted policy decision keeps the plan invariant and every goal that had left ACTIVE |
| `PlanProgress.ActiveIsCurrent` | codex-loop-prompt-architect/scripts/loop_architect/v4_alpha/kernel.py:1574-1717 | at most one goal is ACTIVE, and if one is, it is the goal at the active index |
| `PlanProgress.PairingLookup` | codex-loop-prompt-architect/scripts/loop_architect/v4_alpha/kernel.py:911-931 | the id-to-slice dictionary of a plan with distinct ids returns the slice at the id's position |
| `EffectCoupling.ChainsAreDisjoint` | codex-loop-prompt-architect/scripts/loop_architect/v4_alpha/protocol.py:557-601 | two different effects share neither attempt, host nor provider key |
| `EffectCoupling.ObserveKeepsCoupled` | codex-loop-prompt-architect/scripts/loop_architect/v4_alpha/kernel.py:1049-1139 | an observation keeps attempts and effects pointing at each other one to one with equal revisions and matching states, hosts bound exactly for OBSERVED effects, and moves states only forwards |
| `EffectCoupling.AddKeepsCoupled` | codex-loop-prompt-architect/scripts/loop_architect/v4_alpha/kernel.py:1659-1714 | a new effect with its attempt keeps the coupling and adds exactly one attempt |
| `EffectCoupling.CreateEstablishesCoupled` | codex-loop-prompt-architect/scripts/loop_architect/v4_alpha/kernel.py:826-891 | a created loop is coupled, with one attempt |
| `ResultBinding.SettleKeepsBound` | codex-loop-prompt-architect/scripts/loop_architect/v4_alpha/kernel.py:1558-1574 | when the active goal is advanced, the current result belongs to it |
| `ResultBinding.MoveKeepsBound` | codex-loop-prompt-architect/scripts/loop_architect/v4_alpha/kernel.py:1715-1725 | moving to the next goal keeps every result bound to an existing goal and to an effect that is no longer merely committed |
| `ResultBinding.StageKeepsBound` | codex-loop-prompt-architect/scripts/loop_architect/v4_alpha/kernel.py:1334-1381 | staging keeps results bound even where it overwrites a record |
| `ResultBinding.AcknowledgeKeepsBound` | codex-loop-prompt-architect/scripts/loop_architect/v4_alpha/kernel.py:1446-1456 | acknowledging keeps results bound even where the artifact overwrites another |
| `ClosureBacking.StopKeepsEnding` | codex-loop-prompt-architect/scripts/loop_architect/v4_alpha/kernel.py:2253-2280 | a stop leaves a local closure and no active goal |
| `ClosureBacking.PrepareKeepsEnding` | codex-loop-prompt-architect/scripts/loop_architect/v4_alpha/kernel.py:2345-2374 | preparing a finalization, fresh or overwriting another, keeps a terminal state backed |
| `ClosureBacking.CloseKeepsEnding` | codex-loop-prompt-architect/scripts/loop_architect/v4_alpha/kernel.py:2415-2448 | closing keeps a terminal state backed by a closed finalization of the same disposition and strength |
| `Invariant.PreparedForActive` | codex-loop-prompt-architect/scripts/loop_architect/v4_alpha/kernel.py:369-418 | unless a goal was stopped, a finalization prepared on the current chain is about the goal the plan rests on |
| `Runs.DispatchKeeps` | codex-loop-prompt-architect/scripts/loop_architect/v4_alpha/kernel.py:506-541 | every accepted command of the content role policy keeps the whole invariant and moves the snapshot forwards |
| `Runs.CommitKeeps` | codex-loop-prompt-architect/scripts/loop_architect/v4_alpha/kernel.py:506-541 | a committed command keeps the invariant and the encoding limit, and sets the revision to the expected one plus one |
| `Runs.CommitCreates` | codex-loop-prompt-architect/scripts/loop_architect/v4_alpha/kernel.py:544-896 | the first commit of a loop is CreateLoop and establishes the invariant at revision 1 |
| `Runs.ReachableInv` | codex-loop-prompt-architect/scripts/loop_architect/v4_alpha/kernel.py:506-541 | after any sequence of commands, accepted or not, the snapshot satisfies the plan, coupling, binding, ending and policy invariants and can be encoded |
| `Runs.AttemptConservation` | codex-loop-prompt-architect/scripts/loop_architect/v4_alpha/kernel.py:1659-1714 | in every run: attempts = effects = active index + 1 + scheduled repairs, and never more than 128 |
| `Safety.CapIsFinal` | codex-loop-prompt-architect/scripts/loop_architect/v4_alpha/protocol.py:378-382 | at 128 attempts no accepted command materialises a goal or schedules a repair |
| `Safety.RunsMoveForwards` | codex-loop-prompt-architect/scripts/loop_architect/v4_alpha/kernel.py:1049-1725 | from any point of a run to its end the active index and the budgets never decrease, goals that left ACTIVE are unchanged, effects only settle and bound hosts stay |
| `Safety.RepairsAreBounded` | codex-loop-prompt-architect/scripts/loop_architect/v4_alpha/kernel.py:1886-1924 | no run grants any goal more than three repairs |
| `Safety.RepairsAreAccounted` | codex-loop-prompt-architect/scripts/loop_architect/v4_alpha/kernel.py:1880-1924 | the repair counter of the policy record is the number of repairs granted to the goal it names |
| `Safety.ExtensionsAreCounted` | codex-loop-prompt-architect/scripts/loop_architect/v4_alpha/kernel.py:2203-2210 | the revision of the budget extension is the number of extensions of the whole run |
| `Safety.ExtensionsAreFinite` | codex-loop-prompt-architect/scripts/loop_architect/v4_alpha/kernel.py:2133-2210 | each extension lowers (384 - invocations) + (2592000 - seconds), so at most that many can follow any point of a run |
| `Safety.SuccessMeansPlanRan` | codex-loop-prompt-architect/scripts/loop_architect/v4_alpha/kernel.py:2283-2344 | in every run a SUCCEEDED finalization names a DONE goal, and the whole plan ran (all goals materialised and passed, the last one DONE) if and only if no goal is STOPPED; likewise for SUCCEEDED_WITH_LIMITATIONS with passed goals |
| `Safety.ClosureIsBacked` | codex-loop-prompt-architect/scripts/loop_architect/v4_alpha/kernel.py:2241-2506 | in every run a TERMINAL execution is either stopped with local assurance, or its closure names a closed finalization of that disposition and strength, and success is STRICT |
| `StorageMode.FileByOrder` | codex-loop-prompt-architect/scripts/loop_architect/v4_alpha/protocol.py:269-286 | the loop that files goals by order succeeds exactly when all goals have the content shape and no two share an order |
| `StorageMode.ClassifyContent` | codex-loop-prompt-architect/scripts/loop_architect/v4_alpha/protocol.py:242-301 | the content branch of the classifier accepts exactly the declarative content shape |
| `StorageMode.ClassifyEager` | codex-loop-prompt-architect/scripts/loop_architect/v4_alpha/protocol.py:303-349 | the eager branch accepts exactly the declarative eager shape |
| `StorageMode.Classify` | codex-loop-prompt-architect/scripts/loop_architect/v4_alpha/protocol.py:122-349 | the classifier computes the declarative storage mode |
| `StorageMode.ContentExactly` | codex-loop-prompt-architect/scripts/loop_architect/v4_alpha/protocol.py:122-349 | a snapshot that satisfies the plan invariant is content-addressed exactly when its planned ids and its current result are non-empty, and malformed otherwise |
| `StorageMode.ModeIsStable` | codex-loop-prompt-architect/scripts/loop_architect/v4_alpha/protocol.py:122-349 | an accepted command of the role policy keeps a content loop content-addressed if and only if it does not stage a result under an empty reference |
| `StorageMode.CreateMode` | codex-loop-prompt-architect/scripts/loop_architect/v4_alpha/kernel.py:604-618 | a loop is created content-addressed if and only if every planned id is non-empty; otherwise it is malformed |
| `StorageMode.ReachableMode` | codex-loop-prompt-architect/scripts/loop_architect/v4_alpha/protocol.py:122-349 | in every run of the role policy the mode is content-addressed exactly while ids and current result are named, and never another valid mode |
| `ContentRoute.DispatchKeepsPlan` | codex-loop-prompt-architect/scripts/loop_architect/v4_alpha/kernel.py:506-541 | every command of the role policy keeps the plan invariant and the pairing of ids and slices on the plan invariant alone, whatever evidence deliveries have put into the snapshot |
| `ContentRoute.RoutedAdvanceExactly` | codex-loop-prompt-architect/scripts/loop_architect/v4_alpha/kernel.py:1499-1574 | on a delivered result a goal advances on exactly the same grounds, its route serving the goal |
| `ContentRoute.ContentModeIsStable` | codex-loop-prompt-architect/scripts/loop_architect/v4_alpha/kernel.py:1029-1385 | an accepted command, of the role policy or one of the five route and delivery commands, keeps a content loop content-addressed if and only if it is not StageExternalResult or StageResult under an empty reference |
| `ContentRoute.ContentModeForLife` | codex-loop-prompt-architect/scripts/loop_architect/v4_alpha/protocol.py:122-349 | from creation on and through any of these commands, a loop is malformed exactly when a planned id is empty or some accepted command staged a result under an empty reference, and otherwise content-addressed |
| `EagerRoute.OldModeIsStable` | codex-loop-prompt-architect/scripts/loop_architect/v4_eager_v40.py:19-56 | every accepted command on an eager or legacy loop, the route and delivery commands included, keeps its mode if and only if it is not StageExternalResult or StageResult under an empty reference in a planned loop |
| `EagerRoute.OldModeForLife` | codex-loop-prompt-architect/scripts/loop_architect/v4_eager_v40.py:19-56 | through any commands an eager or legacy loop keeps its mode until the first such staging, and is malformed from then on |
| `EagerRoute.RouteKeepsLayout` | codex-loop-prompt-architect/scripts/loop_architect/v4_alpha/kernel.py:1029-1325 | the five route and delivery commands keep the layout that classification reads; StageResult alone moves the current result, to the reference it allocates, and only in planned loops |
| `RouteWitness.EagerLoopDerails` | codex-loop-prompt-architect/scripts/loop_architect/v4_alpha/kernel.py:1286-1325 | a four-command run that delivers along a route and stages under an empty reference: an eager loop before, malformed after |
| `RouteWitness.ContentLoopDerails` | codex-loop-prompt-architect/scripts/loop_architect/v4_alpha/kernel.py:1286-1325 | the same four commands on a freshly created content loop |
| `EagerRoute.ReviseKeepsMode` | codex-loop-prompt-architect/scripts/loop_architect/v4_alpha/kernel.py:973-1026 | a revision of an eager plan keeps its mode: the objectives are matched to goals by digest and relinked in the new order |
| `EagerRoute.AdvanceKeepsLayout` | codex-loop-prompt-architect/scripts/loop_architect/v4_alpha/kernel.py:1726-1825 | advancing an eager plan keeps the layout that classification reads |
| `EagerRoute.OldAdvanceIsWarranted` | codex-loop-prompt-architect/scripts/loop_architect/v4_alpha/kernel.py:1526-1574 | an old goal advances only on a review that warrants the disposition for a required goal, so none is skipped |
| `EagerRoute.ReorderedPermutes` | codex-loop-prompt-architect/scripts/loop_architect/v4_alpha/kernel.py:985-994 | matching the objectives by digest lists every goal exactly once |
| `MemoryStore.InMemoryStore.Apply` | codex-loop-prompt-architect/scripts/loop_architect/v4_alpha/store.py:187-282 | the class method changes its dictionaries to exactly the specified state and returns the specified answer, with the three injected crashes |
| `MemoryStore.InMemoryStore.PutBlob` | codex-loop-prompt-architect/scripts/loop_architect/v4_alpha/store.py:84-94 | a blob is stored under its digest; other content under that digest is refused and nothing changes |
| `MemoryStore.InMemoryStore.VerifyIntegrity` | codex-loop-prompt-architect/scripts/loop_architect/v4_alpha/store.py:163-185 | the loops of the integrity check decide the declarative integrity predicate |
| `Linearisation.Linearised` | codex-loop-prompt-architect/scripts/loop_architect/v4_alpha/store.py:187-282 | after any run over many loops, each call under its own authority registry, each loop's accepted commands expected revisions 0..n-1, its snapshot is their fold, its events are theirs numbered from 1, and their results are stored |
| `Linearisation.RetryReplays` | codex-loop-prompt-architect/scripts/loop_architect/v4_alpha/store.py:196-217 | an exact retry of an accepted command returns the stored result marked as replayed and changes nothing; a different command under its id is refused |
| `Linearisation.AlwaysIntact` | codex-loop-prompt-architect/scripts/loop_architect/v4_alpha/store.py:163-185 | the integrity check holds after every run |
| `Linearisation.OperationsStaySettled` | codex-loop-prompt-architect/scripts/loop_architect/v4_alpha/store.py:196-217 | an operation id keeps the first outcome stored for it for the rest of the run, and is never both accepted and rejected |
| `Outcomes.MemDecides` | codex-loop-prompt-architect/scripts/loop_architect/v4_alpha/store.py:219-281 | a new command is answered by the first failure of admission, revision check, reducer and encoding, in this order, or accepted; then its loop alone changes, to the reducer's snapshot with the events appended |
| `Outcomes.MemOutcomeStays` | codex-loop-prompt-architect/scripts/loop_architect/v4_alpha/store.py:196-282 | once a new operation was accepted or refused, every later exact sealed retry gets that outcome again, whatever happens in between and under whatever registry, and any other request under its id a conflict; neither changes anything |
| `SqliteStore.SQLiteStore.Apply` | codex-loop-prompt-architect/scripts/loop_architect/v4_persistence/sqlite_store.py:576-744 | the transaction as executed, with nine crash points, gives exactly the specified durable tables, connection state and answer |
| `SqliteStore.SQLiteStore.Write` | codex-loop-prompt-architect/scripts/loop_architect/v4_persistence/sqlite_store.py:644-744 | the writes of an accepted command, up to each crash point |
| `SqliteStore.SQLiteStore.SyncOutbox` | codex-loop-prompt-architect/scripts/loop_architect/v4_persistence/sqlite_store.py:944-1008 | the upsert loop over the sorted attempts computes the specified outbox or stops at the specified error |
| `SqliteStore.SQLiteStore.ClaimAttempt` | codex-loop-prompt-architect/scripts/loop_architect/v4_persistence/sqlite_store.py:1061-1092 | a claim starts a ready row of a committed attempt and changes nothing else; `Claims.ClaimsExactly` says exactly which are granted |
| `SqliteStore.SQLiteStore.PutBlob` | codex-loop-prompt-architect/scripts/loop_architect/v4_persistence/sqlite_store.py:1100-1121 | a blob is stored under its digest in a transaction of its own |
| `Outcomes.SqlDecides` | codex-loop-prompt-architect/scripts/loop_architect/v4_persistence/sqlite_store.py:606-744 | a new command is decided in the same way over the tables, unless synchronisation fails |
| `Outcomes.SqlOutcomeStays` | codex-loop-prompt-architect/scripts/loop_architect/v4_persistence/sqlite_store.py:576-744 | the same of the SQLite store, rejections included, on a connection without open transaction |
| `Outcomes.EventsAreAttributed` | codex-loop-prompt-architect/scripts/loop_architect/v4_persistence/sqlite_store.py:662-676 | every event row of a run belongs to an accepted operation of its loop |
| `Claims.ClaimsExactly` | codex-loop-prompt-architect/scripts/loop_architect/v4_persistence/sqlite_store.py:1061-1092 | on a free connection a claim is granted if and only if the row is committed and READY; that row is then STARTED for the executor and nothing else changes |
| `Claims.NewAttemptIsReady` | codex-loop-prompt-architect/scripts/loop_architect/v4_persistence/sqlite_store.py:944-1008 | an attempt that a commit adds gets a READY row without executor |
| `Claims.PendingIsReady` | codex-loop-prompt-architect/scripts/loop_architect/v4_persistence/sqlite_store.py:1061-1092 | in any run, a stored attempt that is still committed and was never granted is READY |
| `Claims.FirstClaimIsGranted` | codex-loop-prompt-architect/scripts/loop_architect/v4_persistence/sqlite_store.py:1061-1092 | the first claim of such an attempt on a free connection is granted, and from there on it was granted exactly once |
| `CrashRefinement.CrashIsAllOrNothing` | codex-loop-prompt-architect/scripts/loop_architect/v4_persistence/sqlite_store.py:47-57 | whatever the crash point, the durable tables are the complete state before or the complete state after, the latter exactly behind the commit |
| `CrashRefinement.CrashThenRetry` | codex-loop-prompt-architect/scripts/loop_architect/v4_persistence/sqlite_store.py:576-744 | a crashed command that is sent again, under whatever registry is in force by then, is a first call if it crashed before the commit, and behind the commit returns the stored result and changes nothing |
| `Refinement.ApplyRefines` | codex-loop-prompt-architect/scripts/loop_architect/v4_persistence/sqlite_store.py:576-744 | read back from its tables, one uncorrupted SQLite call is the in-memory call, with the same answer |
| `Refinement.RunRefines` | codex-loop-prompt-architect/scripts/loop_architect/v4_persistence/sqlite_store.py:576-744 | the durable tables after any run with crashes, claims, blobs, reopenings and replaced registries read back as a run of the in-memory store under the same registries |
| `Refinement.DurableIsLinear` | codex-loop-prompt-architect/scripts/loop_architect/v4_persistence/sqlite_store.py:1259-1364 | every such run is linear in the same sense, and intact |
| `Outbox.ClaimedOnce` | codex-loop-prompt-architect/scripts/loop_architect/v4_persistence/sqlite_store.py:1061-1092 | in every run at most one claim of an attempt succeeds |
| `Outbox.ObservedIsNeverClaimed` | codex-loop-prompt-architect/scripts/loop_architect/v4_persistence/sqlite_store.py:1061-1092 | once an attempt is started or observed, no later claim succeeds, whatever the run does |
| `Outbox.AttemptsAgree` | codex-loop-prompt-architect/scripts/loop_architect/v4_persistence/sqlite_store.py:944-1008 | one pass of the upsert makes every listed row agree with its attempt field by field and touches no other row |
| `Outbox.CommitKeepsOutbox` | codex-loop-prompt-architect/scripts/loop_architect/v4_persistence/sqlite_store.py:944-1008 | a commit keeps the outbox in agreement with every stored snapshot |
| `OutboxRuns.OutboxAlwaysAgrees` | codex-loop-prompt-architect/scripts/loop_architect/v4_persistence/sqlite_store.py:1293-1350 | after any run mixing commands, claims, blobs, crashes and replaced registries, outbox rows match the attempts of the snapshots, pending ones READY or STARTED, observed ones with their own state and receipt |
| `OutboxRuns.SyncFailsExactly` | codex-loop-prompt-architect/scripts/loop_architect/v4_persistence/sqlite_store.py:746-1008 | synchronising the derived tables of a decided command ends in the first trouble found, in sorted order, among the payloads, the actors and grants of a loop it creates, and the receipts it names; so it succeeds if and only if every payload materialises, those actors and grants have canonical encodings and are not stored yet, and every such receipt is registered for the loop, has an encoding and does not differ from the one stored under its reference |
| `OutboxRuns.ObservedSnapshotIsNeverClaimed` | codex-loop-prompt-architect/scripts/loop_architect/v4_persistence/sqlite_store.py:1061-1092 | once the stored snapshot of a loop shows an attempt as observed, unknown or unverifiable, no later claim of it in the run is granted |
| `Identities.RegistryFails` | codex-loop-prompt-architect/scripts/loop_architect/v4_persistence/sqlite_store.py:764-806 | storing the registry of a new loop fails as the first actor, or else grant, in sorted order that has no encoding or is already stored |
| `Identities.RegistryAdds` | codex-loop-prompt-architect/scripts/loop_architect/v4_persistence/sqlite_store.py:764-806 | if it succeeds, exactly the loop's actors, grants and trusted issuers are added, over free keys |
| `OpenTransactions.CorruptionStaysOpen` | codex-loop-prompt-architect/scripts/loop_architect/v4_persistence/sqlite_store.py:727-744 | a new, decided command without such trouble is committed and its receipts are stored; with trouble nothing of it is durable: a violated key is rolled back and reported as corruption, corruption is reported and leaves the transaction open, and a record without encoding ends in an uncaught error, with the transaction open and the operation row in it |
| `OpenTransactions.StuckUntilReopened` | codex-loop-prompt-architect/scripts/loop_architect/v4_persistence/sqlite_store.py:503-509 | on a connection with an open transaction nothing is accepted, claimed or stored and nothing changes, whatever is called, until it is reopened |
| `OpenTransactions.SyncClashesExactly` | codex-loop-prompt-architect/scripts/loop_architect/v4_persistence/sqlite_store.py:746-1008 | synchronising a decided command violates a unique key if and only if its payloads materialise and, of the actors and grants of the loop it creates, the first in order that cannot be stored is already stored |
| `StoreCounterexamples.UnknownReceiptStaysOpen` | codex-loop-prompt-architect/scripts/loop_architect/v4_persistence/sqlite_store.py:808-830 | a two-command run over the kernel in which a pause naming an unregistered receipt leaves the transaction open |
| `StoreCounterexamples.SecondReceiptStaysOpen` | codex-loop-prompt-architect/scripts/loop_architect/v4_persistence/sqlite_store.py:808-830 | the same with a registered receipt and, under a name no reducer reads, an unregistered one |
| `StoreCounterexamples.ReissuedReceiptStaysOpen` | codex-loop-prompt-architect/scripts/loop_architect/v4_persistence/sqlite_store.py:829-830 | the same with a receipt that is registered for the loop but was reissued since the store kept it |
| `StoreCounterexamples.OversizedReceiptStaysOpen` | codex-loop-prompt-architect/scripts/loop_architect/v4_persistence/sqlite_store.py:727-737 | the same with a registered receipt that has no canonical encoding, ending in an uncaught error instead of reported corruption |
| `OutboxRuns.AlwaysVerified` | codex-loop-prompt-architect/scripts/loop_architect/v4_persistence/sqlite_store.py:1264-1355 | after every run the part of the SQLite integrity check before the authority tables are read back, and its check of the blobs, find nothing wrong |
| `AuthorityReload.VouchedUnderEveryOrder` | codex-loop-prompt-architect/scripts/loop_architect/v4_persistence/sqlite_store.py:443-451 | whatever the order of rows about one issuer, the dictionary of trusted issuers supports a claim if and only if some loop trusts the issuer and all that do agree on the claim |
| `AuthorityReload.ReloadsExactly` | codex-loop-prompt-architect/scripts/loop_architect/v4_persistence/sqlite_store.py:392-476 | the authority tables can be read back, in every such order, if and only if each record is filed under its own reference, its issuer is vouched for by all loops alike, and each grant is intact and between stored actors |
| `AuthorityReload.LoadsExactly` | codex-loop-prompt-architect/scripts/loop_architect/v4_persistence/sqlite_store.py:392-476 | in a given order, they can be read back if and only if each record is filed under its own reference, each grant is intact and between stored actors, and the dictionary made in that order trusts the issuers with their claims |
| `AuthorityReload.CommitReloads` | codex-loop-prompt-architect/scripts/loop_architect/v4_persistence/sqlite_store.py:746-830 | if they could be read back before a commit, in a given order or in all, they can be after it if and only if the registry was sound for it: the loop it creates has only records that can be read back, so are the receipts it names, and its trusted issuers leave stored records trusted |
| `AuthorityReload.StoredStayTrusted` | codex-loop-prompt-architect/scripts/loop_architect/v4_persistence/sqlite_store.py:790-806 | in all orders, the trusted issuers of a new loop leave stored records trusted if and only if they contradict none of their claims |
| `AuthorityReload.IntegrityExactly` | codex-loop-prompt-architect/scripts/loop_architect/v4_persistence/sqlite_store.py:1259-1364 | in whatever order trusted issuers are read, the whole integrity check passes at every point of a run if and only if every commit of the run was made under a registry that was sound for it |
| `AuthorityReload.IntegrityInOrderExactly` | codex-loop-prompt-architect/scripts/loop_architect/v4_persistence/sqlite_store.py:1259-1364 | the same for the one order in which they are read |
| `StoreCounterexamples.StrangerBreaksIntegrity` | codex-loop-prompt-architect/scripts/loop_architect/v4_persistence/sqlite_store.py:764-790 | creating a loop under a registry with one further actor of the loop, from an untrusted issuer, is accepted, and the authority tables can then not be read back |
| `KernelStore.KernelIsDisciplined` | codex-loop-prompt-architect/scripts/loop_architect/v4_alpha/kernel.py:506-541 | the kernel continues stored loops as the outbox needs: attempts persist and only move forwards, goals stay named, actor and grant belong to the loop |
| `KernelStore.KernelHasNoConflict` | codex-loop-prompt-architect/scripts/loop_architect/v4_alpha/kernel.py:506-541 | no kernel check or reducer raises IDEMPOTENCY_CONFLICT, which only the stores raise |
| `KernelStore.KernelStoreIsSound` | codex-loop-prompt-architect/scripts/loop_architect/v4_persistence/sqlite_store.py:576-744 | the SQLite store driven by the kernel, each call under its own registry: every run is linear, its outbox agrees, and the integrity check finds nothing wrong outside the authority tables |
| `KernelStore.KernelIntegrityExactly` | codex-loop-prompt-architect/scripts/loop_architect/v4_persistence/sqlite_store.py:1259-1364 | for the kernel, the whole integrity check passes at every point of a run if and only if every commit was made under a sound registry |
| `KernelAnswers.StoreAcceptsExactly` | codex-loop-prompt-architect/scripts/loop_architect/v4_persistence/sqlite_store.py:576-744 | after any run of the SQLite store over the kernel, a new operation on a free connection whose synchronisation does not fail is accepted if and only if it is well formed and sealed, permitted, refers to what is there, and, of a stored loop, the loop is content-addressed and at the expected revision and meets what the command demands, or else it is an acceptable CreateLoop |
| `PlanAuthority.ValidatePlanSelector` | codex-loop-prompt-architect/scripts/loop_architect/v4_alpha/kernel.py:107-214 | the nested loops with the matched flag pass, on an intact plan, exactly what the selector selects: the loop and its finalization in loop scope, references of planned goals, and those of repairs below the attempt limit |
| `PlanAuthority.EnvelopeIsChecked` | codex-loop-prompt-architect/scripts/loop_architect/v4_alpha/kernel.py:156-214 | besides loop and finalization the selector check admits exactly the subjects in the envelope that the following theorems are about |
| `PlanAuthority.EnvelopeGrows` | codex-loop-prompt-architect/scripts/loop_architect/v4_alpha/kernel.py:107-214 | an accepted command extends the authorised subjects by exactly the repair references of newly materialised goals |
| `PlanAuthority.RevisionKeepsEnvelope` | codex-loop-prompt-architect/scripts/loop_architect/v4_alpha/kernel.py:911-960 | an accepted revision leaves the authorised subjects unchanged |
| `PlanAuthority.EnvelopeNeverShrinks` | codex-loop-prompt-architect/scripts/loop_architect/v4_alpha/kernel.py:107-214 | over any run the authorised subjects never shrink |
| `PlanAuthority.ScheduledInEnvelope` | codex-loop-prompt-architect/scripts/loop_architect/v4_alpha/kernel.py:182-212 | the references of a scheduled repair are in the envelope if and only if the plan has V2 capacity and the ordinal is below the goal's attempt limit |
| `PlanDocuments.CanonicalIsFixpoint` | codex-loop-prompt-architect/scripts/loop_architect/v4_alpha/plan_codec.py:630-640 | canonicalising an accepted v1 or v2 plan again returns it if and only if its currency is unchanged by normalising and upper-casing |
| `PlanDocuments.AsciiCurrencySettles` | codex-loop-prompt-architect/scripts/loop_architect/v4_alpha/plan_codec.py:252 | with a currency that is ASCII once normalised, or none, canonical plans are fixpoints |
| `PlanDocuments.LawsAreMet` | codex-loop-prompt-architect/scripts/loop_architect/v4_alpha/plan_codec.py:131-146 | what this assumes of normalisation on ASCII text is met by unifying line breaks and stripping |
| `PlanDocuments.ParsedPlansAreFixpoints` | codex-loop-prompt-architect/scripts/loop_architect/v4_alpha/plan_codec.py:643-653 | stored bytes parse to a plan if and only if they are the encoding of a fixpoint |
| `PlanContents.CanonicalExactly` | codex-loop-prompt-architect/scripts/loop_architect/v4_alpha/plan_codec.py:202-640 | a document has a canonical plan if and only if it is acceptable, field by field, and the plan fits its size limit; the plan is the document with every text normalised in place and the currency upper-cased: numbers, flags, choices, list and goal order, policies and requirement keys are those of the document |
| `PlanContents.ParsedExactly` | codex-loop-prompt-architect/scripts/loop_architect/v4_alpha/plan_codec.py:643-653 | stored bytes are accepted if and only if they are the encoding of a plan that is acceptable and normalised |
| `PlanIndexes.BuildIndexExactly` | codex-loop-prompt-architect/scripts/loop_architect/v4_alpha/plan_codec.py:800-892 | an index is built and valid exactly for permutations of the goal ids with a clean workspace, a 32-bit revision and a hex authority digest |
| `PlanIndexes.IndexContents` | codex-loop-prompt-architect/scripts/loop_architect/v4_alpha/plan_codec.py:800-835 | an index lists the order it was built for, for each id the digest of the slice of the goal with that id, and what else it was built with |
| `PlanIndexes.PlanChecksExactly` | codex-loop-prompt-architect/scripts/loop_architect/v4_alpha/plan_codec.py:1037-1084 | the payload of a compiled plan meets the kernel's plan checks if and only if the workspace binding has 64 characters and the host budget covers the goals |
| `PlanIndexes.CompiledIsAccepted` | codex-loop-prompt-architect/scripts/loop_architect/v4_alpha/plan_codec.py:1087-1164 | the compiled CreateLoop command is accepted by the reducer if and only if, besides, the confirmation is the strict one it names and the artifact profile is known |
| `PlanIndexes.CompiledPairs` | codex-loop-prompt-architect/scripts/loop_architect/v4_alpha/plan_codec.py:1037-1084 | the snapshot committed by the compiled CreateLoop command has the plan's goals in plan order, paired with the codec's slice digests |
| `PlanIndexes.CompiledIsCarried` | codex-loop-prompt-architect/scripts/loop_architect/v4_alpha/plan_codec.py:1037-1164 | the created loop carries the document: digests of plan and index, budget, reorderings, stop conditions, workspace and authority, and starts with its first goal under that goal's requirement and attempt limit |
| `PlanIndexes.CompiledStaysValid` | codex-loop-prompt-architect/scripts/loop_architect/v4_alpha/plan_codec.py:838-892 | in every run that starts with the compiled command, whatever it revises, the plan's slices are the codec's for its current order of ids, and the compiled index with that order, those slices and any 32-bit revision passes index validation |
| `PlanIndexes.PairingHoldsForLife` | codex-loop-prompt-architect/scripts/loop_architect/v4_alpha/plan_codec.py:838-892 | the id and slice-digest pairing that index validation demands holds for the rest of any run |
| `PlanIndexes.ScheduledIsCodecChain` | codex-loop-prompt-architect/scripts/loop_architect/v4_alpha/plan_codec.py:1198-1233 | a repair chain the kernel schedules is the codec's chain whenever the codec has one, which is for ordinals 1 and 2 |
| `RepairSchedule.ScheduledByCommit` | codex-loop-prompt-architect/scripts/loop_architect/v4_alpha/kernel.py:1938-2049 | a committed command that announces a scheduled repair schedules it for the active goal the plan rests on, at the policy counter plus one, at most three, and announces the attempt it creates |
| `RepairSchedule.ScheduledIsAuthorised` | codex-loop-prompt-architect/scripts/loop_architect/v4_alpha/kernel.py:156-260 | at any point of any run, a command about a scheduled repair under a selector grant that is otherwise in order passes the authority check if and only if the plan has V2 capacity and the ordinal is below the goal's attempt limit; otherwise the answer is AUTHORITY_SCOPE_MISMATCH |
| `RepairSchedule.ScheduledIsCodec` | codex-loop-prompt-architect/scripts/loop_architect/v4_alpha/plan_codec.py:1198-1233 | at any point of any run, a scheduled repair chain is the codec's for ordinals 1 and 2 exactly, the codec has none for ordinal 3, and below the attempt limit it always has one |
| `RepairWitness.ThirdRepairIsScheduled` | codex-loop-prompt-architect/scripts/loop_architect/v4_alpha/kernel.py:1938-1964 | an eight-command run that schedules ordinal 3 for a goal whose attempt limit is 1: the chain is outside every plan selector and unknown to the codec |
| `Uninstaller.Installation.Recover` | scripts/uninstall_v4.py:434-519 | recovery from any reachable state keeps the live tree, ends clean when it ends, does nothing without a journal, and never finds the journal missing, foreign or ambiguous; uninterrupted it always finishes |
| `Uninstaller.Installation.Uninstall` | scripts/uninstall_v4.py:522-612 | after any invocation the live tree is the original or absent; a tree whose inventory differs from the receipt is never removed, and reported as drift unless the invocation fails before it looks; reported success means absent and clean; the journal and ambiguity errors never occur; undisturbed it succeeds |
| `Uninstaller.Installation.Withdraw` | scripts/uninstall_v4.py:544-575 | journal, staging directory and rename: on any failure the live tree is untouched or wholly withdrawn |
| `Uninstaller.Installation.Collect` | scripts/uninstall_v4.py:576-588 | the deletion completes only under an unchanged configuration |
| `Uninstaller.Installation.Remove` | scripts/uninstall_v4.py:544-612 | one removal: it fails before the rename with the live tree untouched, or behind it with the tree absent; undisturbed it succeeds |
| `Uninstaller.Installation.Abort` | scripts/uninstall_v4.py:589-602 | a failure before the rename that is handled leaves neither journal nor staging |
| `Uninstaller.Installation.DeleteTree` | scripts/uninstall_v4.py:581-584 | a deletion cut short leaves a part of the tree |
| `Uninstaller.Installation.Discard` | scripts/uninstall_v4.py:603-606 | removing the staging directory and then the journal leaves nothing behind, or the journal with at most an empty directory |
| `Uninstaller.RunAll` | scripts/uninstall_v4.py:434-612 | over any sequence of invocations with crashes the live install is exactly the original tree or absent |
| `Uninstaller.RecoverTwice` | scripts/uninstall_v4.py:434-519 | after any such sequence a recovery that ends leaves no journal and no staging, and a second one changes nothing |
| `CycleCheck.Search.Visit` | scripts/validate_spec.py:232-243 | the depth-first search terminates, reports only nodes on cycles, and without a report leaves the finished nodes ranked |
| `CycleCheck.Search.VisitAdr` | scripts/validate_spec.py:213-224 | the same for the single-successor search |
| `CycleCheck.CheckDependencies` | scripts/validate_spec.py:205-246 | a dependency cycle among known ids is reported if and only if there is one, and every reported node lies on one |
| `CycleCheck.CheckSupersession` | scripts/validate_spec.py:205-230 | the same for the supersession of decision records |
| `CycleCheck.RankedHasNoCycle` | scripts/validate_spec.py:232-243 | finished nodes whose successors finished before them contain no cycle |
| `CycleCheck.PathCloses` | scripts/validate_spec.py:233-237 | meeting a node of the current path again closes a real cycle |
| `ArtifactPaths.NormalizeIsIdempotent` | codex-loop-prompt-architect/scripts/loop_architect/v4_artifacts/paths.py:39-54 | an accepted path normalises to itself and has only plain components, none of them a parent step or, in front, a control directory |
| `ArtifactPaths.SplitJoin` | codex-loop-prompt-architect/scripts/loop_architect/v4_artifacts/paths.py:39-54 | splitting a joined path returns its components |
| `ArtifactPaths.SortedIsInOrder` | codex-loop-prompt-architect/scripts/loop_architect/v4_artifacts/paths.py:57-71 | the sorted path list is in order |
| `ArtifactPaths.RejectCasefoldCollisions` | codex-loop-prompt-architect/scripts/loop_architect/v4_artifacts/paths.py:57-71 | the check passes if and only if every path normalises and no two entries fold to the same name; it returns them sorted and distinct |
| `ArtifactDelta.CaptureDelta` | codex-loop-prompt-architect/scripts/loop_architect/v4_artifacts/capture.py:215-259 | a delta exists exactly when no two known paths differ only in case; it lists exactly the paths whose content differs, each as added, deleted or modified as before and after say; applied to the before map it gives the after map, reversed it gives the before map, it is empty exactly for equal maps, sorted, unique, case-distinct, and its blobs are those of added and modified files |
| `ArtifactDelta.PatchGivesAfter` | codex-loop-prompt-architect/scripts/loop_architect/v4_artifacts/capture.py:227-251 | applying the manifest to the before map yields exactly the after map |
| `ArtifactDelta.ReversalGivesBefore` | codex-loop-prompt-architect/scripts/loop_architect/v4_artifacts/capture.py:227-251 | applying the reversed manifest to the after map yields exactly the before map |
| `ArtifactDelta.ReversalIsManifest` | codex-loop-prompt-architect/scripts/loop_architect/v4_artifacts/capture.py:227-251 | the reversed manifest is the manifest of the opposite delta, listed backwards |
| `ArtifactDelta.EmptyMeansEqual` | codex-loop-prompt-architect/scripts/loop_architect/v4_artifacts/capture.py:227-251 | the manifest is empty if and only if the maps are equal |
| `Counterexamples.EmptyIdIsMalformed` | codex-loop-prompt-architect/scripts/loop_architect/v4_alpha/kernel.py:604-618 | a run that creates a loop with an empty goal id, which the classifier then calls malformed |
| `Counterexamples.EmptyResultIsMalformed` | codex-loop-prompt-architect/scripts/loop_architect/v4_alpha/kernel.py:1334-1381 | a three-command run whose second snapshot is content-addressed and whose third, after staging under an empty reference, is malformed |
| `Counterexamples.StoppedPlanSucceeds` | codex-loop-prompt-architect/scripts/loop_architect/v4_alpha/kernel.py:2283-2344 | an eight-command run that stops the second goal, leaving TERMINAL, and is still finalised as SUCCEEDED on the first |

## Left out

- Route and delivery commands (`_bind_host_resource`, `_prepare_route`, `_begin_delivery`, `_observe_delivery`, `_stage_result`): modelled for storage-mode stability only; every other run theorem is about the content role policy.
- ContentRoute.ContentModeIsStable: acknowledging, reviewing and finalising a result staged from a delivery may put anything into the sections they write, and authority, reference and freshness checks against deliveries are not repeated, so it covers more steps than the program takes.
- EagerRoute.OldModeIsStable: models eager and legacy snapshots only as far as classification reads and as advancing, revising, stopping, staging and routing decide about it; the other commands may put anything into the records they write, and authority and reference checks are not repeated.
- KernelDraft.ReduceCommand: `_create_loop` builds its snapshot as a function, because the program has no snapshot to change there.
- Acceptance.CommitAnswers: of a command that only the reducer refuses it says no more than that the reducer's failure is the answer; which of several failures a reducer meets first is modelled in the order of the program, but not restated.
- Linearisation.Linearised: assumes of the reducer only that it accepts sealed commands and steps the revision, which `KernelStore` proves of the kernel; the eager route is not put in.
- OutboxRuns.AlwaysVerified: says nothing about the authority tables that `verify_integrity` reads back; `AuthorityReload` does.
- AuthorityReload.CommitReloads: the loop column of an authority row is taken to be the loop its record names, as the writes make it; a reopened store may bring any registry, not only the one read back.
- CrashRefinement.CrashThenRetry: assumes that the reducer accepts only sealed commands, which `KernelStore` proves of the kernel.
- PlanDocuments.CanonicalIsFixpoint: Unicode normalisation, stripping, upper-casing and UTF-8 size are parameters, of which only that cleaning is idempotent and leaves stripped text is assumed.
- PlanContents.CanonicalExactly: the closed key sets and JSON types of a document are those of the datatypes, and normalising, upper-casing, UTF-8 size and the parsing of due times are parameters.
- PlanDocuments.AsciiCurrencySettles: assumes that NFC leaves ASCII text alone, and that upper-casing and UTF-8 size are the plain ones there.
- PlanDocuments.ParsedPlansAreFixpoints: JSON decoding and encoding are parameters, assumed to be inverse on encodable plans.
- ArtifactDelta.CaptureDelta: case folding is a parameter, and file contents come as a map from digests.
- Uninstaller.RunAll: process crashes only; reordering of directory updates by a power loss, temporary files of the atomic writer, journals of other scripts, and ownership, permission and symbolic-link checks are not modelled.
- CycleCheck.CheckDependencies: the field checks before the two searches, and the wording and order of the messages.
- The closed-shape, version, size and injection checks of `validate_command` are one field, the first defect found; JSON, SHA-256, regular expressions and string-length limits of canonical encoding and of result summaries are library matters, except the limit of 128 items, which is modelled on every map and list of the snapshot.
- Timestamps are integers, the size of a receipt and the digest check of a grant are booleans, and details of rejections are dropped.
- The order in which Python sorts strings is a parameter (`latest`, `sorted`).
- `ApplyResult` carries the events and the snapshot in place of event types and the snapshot digest.
- Schema creation and migration, pragmas, WAL, file permissions, backup, export and decoding of stored rows in the SQLite store; the listing of ready attempts.
- Materialisation of provider payloads from blobs is a parameter that more blobs do not change.
- `legacy_plan_from_request`, plan previews and prompt text.
- Git capture, artifact verification, providers, conversation and projection modules, release scripts.
