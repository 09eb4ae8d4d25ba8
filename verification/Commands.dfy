/** Commands, authority and receipts, events and responses. */
module Commands {
  import opened Base
  import opened Records

  /** `machine_bindings.allocate_refs` */
  datatype Slot =
    | NewGoal | NewAttempt | NewEffect | NewHost | NewResult | NewReport | NewArtifact | NewReview
    | NewFinalization | ProviderIdempotencyKey

  /** `machine_bindings.resolved_refs` */
  datatype Field =
    | TargetRef | ProviderAction | PreparedManifest | BoundaryDigest | PreparedBundle | RequestDigest
    | BaselineBlob | ArtifactProfile | WorkspaceIdentity | SourceObservation | ArtifactDigest | CaptureState
    | ManifestDigest | VerificationDigest | VerificationState | ReviewBinding | ProviderTarget | PlanDigest
    | IndexDigest | NextGoalId | NextSlice | NextObjective | NextRequirement | NextMaxAttempts
    | ContextDigest | DecisionCard | RepairBudget | SameFailureBudget

  datatype CommandType =
    | CreateLoop | RecordExternalEffectObservation | StageExternalResult | AcknowledgeResult | RecordReview
    | RecordPolicyDecision | AdvanceGoal | PauseLoop | ResumeLoop | ReviseGoalPlan | StopLoop
    | PrepareFinalization | CloseExecution | StrengthenClosureAssurance

  /** The confirmed plan carried by CreateLoop. `complete` is false when an optional payload member that the
      content route reads is absent. */
  datatype Startup = Startup(
    objective: string, goalPlan: seq<string>, adaptive: bool, maxRevisions: int, complete: bool,
    goalCount: int, activeIndex: int, planRevision: int, goalId: Str, slice: Str, ids: seq<Str>, slices: seq<Str>,
    planDigest: Str, indexDigest: Str, authority: Str, workspace: Str, invocations: int, seconds: int, cost: int,
    stopPolicy: Str, requirement: Requirement, maxAttempts: int, capacity: Capacity)

  /** The fields ResumeLoop may carry; only a budget wait or a controller gate accepts any. */
  datatype ResumeFields =
    | NoFields
    | GateEvidence(gate: Str)
    | BudgetFields(invocations: int, seconds: int, prior: Str, reason: Str)
    | OtherFields

  /** The semantic payload, after the closed-shape check of `validate_command`. */
  datatype Payload =
    | Create(startup: Startup)
    | Observe
    | Stage(outcome: Outcome, summary: string)
    | Acknowledge
    | Judge(verdict: Verdict)
    | Decide(decision: Decision, fingerprint: string)
    | Advance(to: GoalState)
    | Pause(reason: string, wait: Option<WaitKind>)
    | Resume(fields: ResumeFields)
    | Revise(ids: seq<Str>, slices: seq<Str>, indexDigest: Str, revision: int, reason: string)
    | StopNow(reason: string)
    | Prepare(disposition: Disposition)
    | Close
    | Strengthen

  function TypeOf(p: Payload): CommandType {
    match p
    case Create(_) => CreateLoop
    case Observe => RecordExternalEffectObservation
    case Stage(_, _) => StageExternalResult
    case Acknowledge => AcknowledgeResult
    case Judge(_) => RecordReview
    case Decide(_, _) => RecordPolicyDecision
    case Advance(_) => AdvanceGoal
    case Pause(_, _) => PauseLoop
    case Resume(_) => ResumeLoop
    case Revise(_, _, _, _, _) => ReviseGoalPlan
    case StopNow(_) => StopLoop
    case Prepare(_) => PrepareFinalization
    case Close => CloseExecution
    case Strengthen => StrengthenClosureAssurance
  }

  /** A key of `expected_subject_revisions`. */
  datatype Subject = ExecutionSubject | ClosureSubject | PlanSubject | RecordSubject(ref: Str)

  /** Everything the request digest covers. `receipt` is the entry `receipt` of `receipt_refs`, the only one a reducer
      reads; `others` are its remaining entries. */
  datatype Request = Request(
    operationId: Str, actor: Str, grant: Str, loop: Str, kind: Kind, subject: Str,
    expectedRevision: nat, expectedSubjects: seq<(Subject, nat)>, issuedAt: int,
    allocate: map<Slot, Str>, resolved: map<Field, Str>, receipt: Option<Str>, others: map<string, Str>,
    payload: Payload)

  /** What `validate_command` and canonical encoding can find wrong with a command. */
  datatype Defect = BadVersion | BadShape | BadKind | BadText | Injected | TooLarge

  function CodeOf(d: Defect): ErrorCode {
    match d
    case BadVersion => UnsupportedProtocolVersion
    case BadShape => InvalidCommand
    case BadKind => WrongReferenceKind
    case BadText => InvalidUtf8
    case Injected => ControlFieldInjection
    case TooLarge => ResourceLimitExceeded
  }

  /** `defect` is the first failure, if any, of the closed-shape, version and size checks of `validate_command`;
      `unencodable` the error canonical encoding raises on the request, which then has no digest; `sealed` says whether
      the claimed request digest is the digest of the request. */
  datatype Command = Command(
    request: Request, defect: Option<Defect>, unencodable: Option<Defect>, sealed: bool)

  function ValidateCommand(c: Command): Check {
    if c.defect.Some? then Check.Stop(Rejected(CodeOf(c.defect.value)))
    else if c.unencodable.Some? then Check.Stop(Rejected(CodeOf(c.unencodable.value)))
    else Need(c.sealed, InvalidCommand)
  }

  /** The canonical text of a whole record, or what canonical encoding finds wrong with it. */
  datatype Encoding = Encoded(text: string) | Unencoded(defect: Defect)

  datatype Actor = Actor(ref: Str, namespace: Str, issuer: Str, issuerTrust: Str, encoding: Encoding)

  /** V1 grants list exact subjects (an empty list admits every subject); V2 grants select plan-derived ones. */
  datatype Scope =
    | ExactSubjects(subjects: set<Str>)
    | PlanSelector(planDigest: Str, indexMax: int, includeLoop: bool)
    | InvalidSelector

  /** `intact` says whether the recorded digest is the grant's. */
  datatype Grant = Grant(
    ref: Str, actor: Str, issuer: Str, issuerTrust: Str, intact: bool, notBefore: int, expires: int, loop: Str,
    commands: set<CommandType>, kinds: set<Kind>, scope: Scope, encoding: Encoding)

  datatype Trust = StrictTrust | CooperativeTrust | OtherTrust

  datatype Sighting = SeenObserved | SeenUnknown | SeenUnverifiable | SeenAcknowledged | SeenOther

  datatype Receipt = Receipt(
    ref: Str, withinSize: bool, issuer: Str, issuerTrust: Str, trust: Trust, action: Str, loop: Str, subject: Str,
    attempt: Option<Str>, target: Option<Str>, request: Option<Str>, key: Option<Str>, resource: Option<Str>,
    outcome: Sighting, notBefore: int, expires: int, evidence: Str, encoding: Encoding)

  datatype TrustKind = ActorTrust | GrantTrust | ReceiptTrust

  /** An issuer of one kind of record. */
  datatype Issuer = Issuer(kind: TrustKind, ref: Str)

  /** What the records of each trusted issuer must claim. */
  type Roots = map<Issuer, Str>

  predicate Vouched(roots: Roots, issuer: Issuer, claim: Str) { issuer in roots && roots[issuer] == claim }

  /** The authority registry, and the position of a reference in the string order Python sorts by. */
  datatype Context = Context(
    actors: map<Str, Actor>, grants: map<Str, Grant>, receipts: map<Str, Receipt>, roots: Roots,
    latest: set<Str> -> Option<Str>)

  /** A command with the authority registry in force when it is applied. */
  datatype Input = Input(command: Command, context: Context)

  datatype Event =
    | LoopCreated(loop: Str) | GoalRegistered(goal: Str) | GoalActivated(goal: Str) | GoalPlanRegistered(plan: Str)
    | StartAuthorized(receipt: Str) | ExternalEffectPrepared(effect: Str)
    | ExternalEffectObserved(effect: Str) | LateExternalEffectObserved(effect: Str)
    | ExternalEffectUnknown(effect: Str) | ExternalEffectUnverifiable(effect: Str) | HostResourceBound(host: Str)
    | ResultStaged(result: Str) | ReportStaged(report: Str)
    | ArtifactCaptured(artifact: Str) | ArtifactVerified(artifact: Str) | ArtifactUnverifiable(artifact: Str)
    | ReportAccepted(report: Str) | ResultAcknowledged(result: Str) | ReviewRecorded(review: Str)
    | HumanDecisionRecorded(decision: Decision) | RepairAuthorized(ordinal: nat)
    | RepairAttemptScheduled(attempt: Str, goal: Str) | RepairExhausted
    | GoalAdvanced(goal: Str) | GoalSkipped(goal: Str) | RoadmapRevised(revision: int)
    | BudgetWaiting | LoopPaused(reason: Str) | BudgetExtended(extension: Str) | ControllerGateSatisfied(gate: Str)
    | LoopResumed | LoopStopped(reason: Str) | FinalizationPrepared(finalization: Str)
    | ExecutionFinalized(finalization: Str) | StrictFinalizationAcknowledged(finalization: Str)
    | ClosureAssuranceStrengthened(finalization: Str)

  const MAX_EVENTS_PER_COMMAND := 16

  datatype Response =
    | Created(goal: Str, effect: Str) | ObservedAs(state: Observation, host: Option<Str>)
    | StagedAs(result: Str, report: Str) | AcknowledgedAs(artifact: Str) | ReviewedAs(review: Str)
    | DecidedAs(decision: Decision, repair: Option<PolicyState>) | AdvancedTo(goalState: GoalState, next: Option<Str>)
    | NowIn(execution: ExecutionState) | RevisedTo(revision: int) | PreparedAs(finalization: Str)
    | ClosedAs(strength: Strength, disposition: Disposition)

  /** What a reducer returns when it accepts. */
  datatype Reduced = Reduced(snapshot: Snapshot, events: seq<Event>, response: Response)
}
