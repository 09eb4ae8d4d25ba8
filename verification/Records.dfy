/** The persisted snapshot of one content-addressed loop, and the strings it is keyed by. */
module Records {
  import opened Base

  datatype Kind =
    | LoopRef | GoalRef | HostResourceRef | ExternalEffectRef | AttemptRef | ResultRef
    | ReportRef | ArtifactRef | ReviewRef | FinalizationRef

  /** Every string the protocol handles. References and digests that the program derives with truncated SHA-256
      are free constructors, so two of them are equal exactly when they were derived from equal inputs. `Named`
      is any other reference-shaped string (its prefix decides its kind), `Num` the decimal form of an integer,
      `Text` every remaining string. */
  datatype Str =
    | Text(text: string)
    | Num(number: int)
    | Named(kind: Kind, suffix: string)
    | PlanRef(planKind: Kind, at: GoalIdentity)
    | PlanKey(at: GoalIdentity)
    | PlanTarget(at: GoalIdentity)
    | LoopFinalRef(loop: Str, plan: Str)
    | RepairRef(repairKind: Kind, repair: RepairIdentity)
    | RepairKey(repair: RepairIdentity)
    | Digest(body: Hashed)

  /** What a plan-derived reference is a digest of. */
  datatype GoalIdentity = GoalIdentity(loop: Str, plan: Str, goalId: Str, slice: Str)

  /** What a repair chain is a digest of. */
  datatype RepairIdentity = RepairIdentity(loop: Str, plan: Str, goalRef: Str, goalId: Str, ordinal: nat)

  /** Domain-separated digests. */
  datatype Hashed =
    | ObjectiveText(text: string)
    | ReasonText(domain: string, text: string)
    | Fingerprint(text: string)
    | ReportContent(outcome: Outcome, summary: string)
    | SubjectChainOf(chain: SubjectChain)
    | HumanContext(context: PolicyContext)
    | RuntimeBudget(invocations: int, seconds: int)
    | BudgetExtension(loop: Str, invocations: int, seconds: int, prior: Str, reason: Str)
    | BlobContent(text: string)
    | SliceContent(text: string)
    | StopPolicy(stops: seq<string>)
    | ProviderContent(text: string)
    | SendContent(intent: Str, target: Str)

  function KindOf(s: Str): Option<Kind> {
    match s
    case Named(k, _) => Some(k)
    case PlanRef(k, _) => Some(k)
    case RepairRef(k, _) => Some(k)
    case LoopFinalRef(_, _) => Some(FinalizationRef)
    case _ => None
  }

  /** `len(value) == 64`; derived digests always have that length, derived references never do. */
  predicate Is64(s: Str) {
    match s
    case Text(t) => |t| == 64
    case Digest(_) => true
    case RepairKey(_) => true
    case _ => false
  }

  predicate IsHex(c: char) { '0' <= c <= '9' || 'a' <= c <= 'f' }

  predicate IsHex64(s: Str) {
    Is64(s) && (s.Text? ==> forall i :: 0 <= i < |s.text| ==> IsHex(s.text[i]))
  }

  /** Python truthiness of a string. */
  predicate Truthy(s: Str) { s != Text("") }

  /** What `str.strip()` removes: the ASCII white space and the other Unicode spaces and separators. */
  predicate IsSpace(c: char) {
    || c == ' ' || '\t' <= c <= '\r' || '\U{1C}' <= c <= '\U{1F}' || c in "\U{85}\U{A0}\U{1680}"
    || '\U{2000}' <= c <= '\U{200A}' || c in "\U{2028}\U{2029}\U{202F}\U{205F}\U{3000}"
  }

  predicate Blank(t: string) { forall i :: 0 <= i < |t| ==> IsSpace(t[i]) }

  /** `str.strip()` */
  function Strip(t: string): string {
    if t == "" then ""
    else if IsSpace(t[0]) then Strip(t[1..])
    else if IsSpace(t[|t| - 1]) then Strip(t[..|t| - 1])
    else t
  }

  // The snapshot's records ---------------------------------------------------------------------------------

  datatype GoalState = Active | Done | Skipped | Failed | Limited | Halted

  datatype Requirement = Required | Optional

  datatype Chain = Chain(
    goalRef: Str, attemptRef: Str, effectRef: Str, hostRef: Str, artifactRef: Str,
    reportRef: Str, resultRef: Str, reviewRef: Str, providerKey: Str, providerTarget: Str)

  datatype Goal = Goal(
    chain: Chain, dependsOn: Option<Str>, goalId: Str, slice: Str, maxAttempts: int,
    objectiveDigest: Str, order: int, requirement: Requirement, revision: nat, state: GoalState)

  /** An attempt's COMMITTED and its effect's ATTEMPT_COMMITTED are one state here. */
  datatype Observation = Committed | Observed | Unknown | Unverifiable

  datatype Baseline = Baseline(blob: Str, profile: Str, workspace: Str)

  datatype Effect = Effect(
    action: Str, baseline: Option<Baseline>, attemptRef: Str, goalRef: Str, hostRef: Str,
    target: Str, revision: nat, state: Observation, receipt: Option<Str>)

  datatype ProviderRequest = ProviderRequest(
    activeIndex: int, artifactDigest: Str, goalId: Str, slice: Str, planDigest: Str,
    indexDigest: Str, prior: Prior, target: Str, workspace: Str)

  datatype Prior = First | Following(goal: GoalState) | Repaired

  datatype Attempt = Attempt(
    action: Str, actor: Str, grant: Str, effectRef: Str, ordinal: int, key: Str,
    request: ProviderRequest, requestDigest: Str, target: Str,
    revision: nat, state: Observation, receipt: Option<Str>)

  datatype Host = Host(resource: Str, receipt: Str, revision: nat)

  datatype Outcome = PassOutcome | FailedOutcome | LimitationOutcome | UnverifiableOutcome

  datatype ResultState = Staged | Acknowledged

  datatype ResultRec = ResultRec(
    attemptRef: Str, effectRef: Str, goalRef: Str, outcome: Outcome, reportRef: Str,
    observation: Str, artifactRef: Option<Str>, revision: nat, state: ResultState)

  datatype Report = Report(author: Str, content: Str, resultRef: Str, revision: nat, accepted: bool)

  datatype Artifact = Artifact(
    content: Str, capture: Str, manifest: Str, profile: Str, receipt: Str, resultRef: Str,
    verification: Str, verificationState: Str, verified: bool, revision: nat)

  datatype Verdict = PassVerdict | RepairVerdict | LimitationVerdict

  datatype Review = Review(
    artifactRef: Str, reportRef: Str, resultRef: Str, reviewer: Str, chainDigest: Str,
    revision: nat, verdict: Verdict)

  datatype Disposition = Succeeded | SucceededWithLimitations | Limitation | Failure | Stopped

  datatype Strength = NoStrength | Local | Cooperative | Strict

  datatype Finalization = Finalization(
    artifactRef: Str, attemptRef: Str, effectRef: Str, goalRef: Str, reportRef: Str, resultRef: Str,
    reviewRef: Str, chainDigest: Str, disposition: Disposition, strength: Strength,
    closed: bool, revision: nat)

  datatype ExecutionState = Running | Paused | Finalizing | Terminal

  datatype WaitKind = WaitBlocked | WaitBudget | WaitFailure | WaitHuman | WaitRepair | WaitTime

  datatype Execution = Execution(
    state: ExecutionState, disposition: Option<Disposition>, revision: nat,
    pauseReason: Option<Str>, wait: Option<WaitKind>, stopReason: Option<Str>)

  datatype Closure = Closure(
    strength: Strength, finalizationRef: Option<Str>, receipt: Option<Str>, revision: nat)

  datatype PolicyState = Idle | Authorized | Exhausted | RepairScheduled | ExecutionPending

  datatype Decision = ContinueRepair | Wait | Stop

  datatype Policy = Policy(
    revision: nat, repairAttempts: nat, sameFailures: nat, state: PolicyState, goalRef: Option<Str>,
    lastFailure: Option<Str>, lastDecision: Option<Decision>, card: Option<Str>)

  datatype Capacity = CapacityV1 | CapacityV2 | CapacityUnknown

  datatype Budget = Budget(cost: int, invocations: int, seconds: int)

  datatype Extension = Extension(digest: Str, reason: Str, revision: nat)

  datatype Plan = Plan(
    activeGoalRef: Str, activeIndex: int, authority: Str, budget: Budget, capacity: Capacity,
    goalCount: int, maxRevisions: int, adaptive: bool, ids: seq<Str>, slices: seq<Str>,
    planDigest: Str, indexDigest: Str, revision: nat, stopPolicy: Str, workspace: Str,
    extension: Option<Extension>)

  datatype StartAuthorization = StartAuthorization(boundary: Str, bundle: Str, manifest: Str, receipt: Str)

  datatype Snapshot = Snapshot(
    loopRef: Str, loopRevision: nat,
    goals: map<Str, Goal>, effects: map<Str, Effect>, attempts: map<Str, Attempt>, hosts: map<Str, Host>,
    results: map<Str, ResultRec>, reports: map<Str, Report>, artifacts: map<Str, Artifact>,
    reviews: map<Str, Review>, finalizations: map<Str, Finalization>,
    execution: Execution, closure: Closure, plan: Plan, policy: Option<Policy>,
    currentResult: Option<Str>, start: Option<StartAuthorization>)

  // Canonical views whose digests bind reviews, finalizations and human decisions ---------------------------

  datatype Versioned = Versioned(ref: Str, revision: nat)

  datatype SubjectChain = SubjectChain(
    artifact: Versioned, attempt: Versioned, report: Versioned, result: Versioned,
    effect: Versioned, host: Versioned, goal: Versioned, review: Option<Versioned>)

  datatype Status =
    | ExecutionStatus(execution: ExecutionState) | GoalStatus(goal: GoalState)
    | ArtifactStatus(verified: bool) | ReviewStatus(verdict: Verdict)

  datatype ContextEntry = ContextEntry(ref: Str, revision: nat, status: Status)

  datatype PolicyContext = PolicyContext(
    loop: Str, loopRevision: nat, executionRevision: nat, execution: Status, goal: Option<ContextEntry>,
    artifact: Option<ContextEntry>, review: Option<ContextEntry>)

  // Derived references --------------------------------------------------------------------------------------

  function GoalChain(loop: Str, plan: Str, goalId: Str, slice: Str): Chain {
    var at := GoalIdentity(loop, plan, goalId, slice);
    Chain(PlanRef(GoalRef, at), PlanRef(AttemptRef, at), PlanRef(ExternalEffectRef, at),
          PlanRef(HostResourceRef, at), PlanRef(ArtifactRef, at), PlanRef(ReportRef, at),
          PlanRef(ResultRef, at), PlanRef(ReviewRef, at), PlanKey(at), PlanTarget(at))
  }

  function RepairChain(id: RepairIdentity): Chain {
    Chain(id.goalRef, RepairRef(AttemptRef, id), RepairRef(ExternalEffectRef, id),
          RepairRef(HostResourceRef, id), RepairRef(ArtifactRef, id), RepairRef(ReportRef, id),
          RepairRef(ResultRef, id), RepairRef(ReviewRef, id), RepairKey(id), RepairRef(HostResourceRef, id))
  }

  /** `derive_plan_ref` raises for kinds outside its prefix table. */
  predicate PlanDerivable(k: Kind) {
    k in {ArtifactRef, AttemptRef, ExternalEffectRef, GoalRef, HostResourceRef, ReportRef, ResultRef, ReviewRef}
  }

  /** Kinds for which a repair chain names a reference. */
  predicate RepairDerivable(k: Kind) { PlanDerivable(k) && k != GoalRef }

  // The 128-item limit of canonical encoding ----------------------------------------------------------------

  const MAX_COLLECTION_ITEMS := 128

  /** `snapshot_digest` refuses a snapshot in which some object or array has more than 128 members. */
  predicate Fits(s: Snapshot) {
    && |s.goals| <= MAX_COLLECTION_ITEMS && |s.effects| <= MAX_COLLECTION_ITEMS
    && |s.attempts| <= MAX_COLLECTION_ITEMS && |s.hosts| <= MAX_COLLECTION_ITEMS
    && |s.results| <= MAX_COLLECTION_ITEMS && |s.reports| <= MAX_COLLECTION_ITEMS
    && |s.artifacts| <= MAX_COLLECTION_ITEMS && |s.reviews| <= MAX_COLLECTION_ITEMS
    && |s.finalizations| <= MAX_COLLECTION_ITEMS
    && |s.plan.ids| <= MAX_COLLECTION_ITEMS && |s.plan.slices| <= MAX_COLLECTION_ITEMS
  }
}
