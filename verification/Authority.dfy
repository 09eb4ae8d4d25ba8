/** Who may issue a command on which subject, and which references a command may name. */
module Authority {
  import opened Base
  import opened Records
  import opened Commands

  // The subjects a plan-selector grant covers ---------------------------------------------------------------

  function PlannedRef(plan: Plan, loop: Str, kind: Kind, i: int): Str
    requires |plan.ids| == |plan.slices| && 0 <= i < |plan.ids|
  {
    PlanRef(kind, GoalIdentity(loop, plan.planDigest, plan.ids[i], plan.slices[i]))
  }

  /** References derived from the planned goals, whether or not they are materialised yet. */
  function PlannedSubjects(plan: Plan, loop: Str, kind: Kind): set<Str> {
    if PlanDerivable(kind) && |plan.slices| == |plan.ids| then
      set i | 0 <= i < |plan.ids| :: PlannedRef(plan, loop, kind, i)
    else {}
  }

  /** References of the repair chains of the goals materialised so far. */
  function RepairSubjects(plan: Plan, loop: Str, goals: map<Str, Goal>, kind: Kind): set<Str> {
    if RepairDerivable(kind) && plan.capacity == CapacityV2 then
      set g, n | g in goals && 1 <= n < goals[g].maxAttempts ::
        RepairRef(kind, RepairIdentity(loop, plan.planDigest, g, goals[g].goalId, n))
    else {}
  }

  function Envelope(s: Snapshot, kind: Kind): set<Str> {
    PlannedSubjects(s.plan, s.loopRef, kind) + RepairSubjects(s.plan, s.loopRef, s.goals, kind)
  }

  /** `_validate_plan_selector` after the loop has been created. */
  function CheckSelector(planDigest: Str, indexMax: int, includeLoop: bool, r: Request, s: Snapshot): Check {
    if s.plan.planDigest != planDigest || s.plan.goalCount != indexMax + 1 then
      Check.Stop(Rejected(AuthorityScopeMismatch))
    else if r.kind == LoopRef then Need(includeLoop && r.subject == r.loop, AuthorityScopeMismatch)
    else if r.kind == FinalizationRef then
      Need(includeLoop && r.subject == LoopFinalRef(r.loop, s.plan.planDigest), AuthorityScopeMismatch)
    else if |s.plan.ids| != |s.plan.slices| || |s.plan.ids| != s.plan.goalCount then
      Check.Stop(Rejected(InternalInvariantViolation))
    else
      Need(r.subject in PlannedSubjects(s.plan, r.loop, r.kind) + RepairSubjects(s.plan, r.loop, s.goals, r.kind),
           AuthorityScopeMismatch)
  }

  /** `_validate_plan_selector` for the command that creates the loop. */
  function CheckCreateSelector(planDigest: Str, indexMax: int, includeLoop: bool, r: Request): Check {
    Need(r.payload.Create? && r.payload.startup.planDigest == planDigest
         && r.payload.startup.goalCount == indexMax + 1
         && r.kind == LoopRef && r.subject == r.loop && includeLoop, AuthorityScopeMismatch)
  }

  function CheckScope(g: Grant, r: Request, s: Option<Snapshot>): Check {
    match g.scope
    case InvalidSelector => Check.Stop(Rejected(InvalidAuthority))
    case PlanSelector(digest, indexMax, includeLoop) =>
      if s.None? then CheckCreateSelector(digest, indexMax, includeLoop, r)
      else CheckSelector(digest, indexMax, includeLoop, r, s.value)
    case ExactSubjects(subjects) => Need(subjects == {} || r.subject in subjects, AuthorityScopeMismatch)
  }

  function CheckGrant(g: Grant, r: Request, ctx: Context): Check {
    if g.actor != r.actor || !Vouched(ctx.roots, Issuer(GrantTrust, g.issuer), g.issuerTrust) || g.issuer !in ctx.actors
    then Check.Stop(Rejected(InvalidAuthority))
    else if g.encoding.Unencoded? then Check.Stop(Rejected(CodeOf(g.encoding.defect)))
    else if !g.intact then Check.Stop(Rejected(InvalidAuthority))
    else if r.issuedAt < g.notBefore || r.issuedAt > g.expires then Check.Stop(Rejected(AuthorityExpired))
    else Need(g.loop == r.loop && TypeOf(r.payload) in g.commands && r.kind in g.kinds, AuthorityScopeMismatch)
  }

  /** `validate_authority` */
  function ValidateAuthority(r: Request, ctx: Context, s: Option<Snapshot>): Check {
    if r.actor !in ctx.actors || ctx.actors[r.actor].ref != r.actor
       || !Vouched(ctx.roots, Issuer(ActorTrust, ctx.actors[r.actor].issuer), ctx.actors[r.actor].issuerTrust) then
      Check.Stop(Rejected(InvalidAuthority))
    else if ctx.actors[r.actor].namespace != r.loop then Check.Stop(Rejected(AuthorityScopeMismatch))
    else if r.grant !in ctx.grants then Check.Stop(Rejected(InvalidAuthority))
    else
      var grant := ctx.grants[r.grant];
      var checked := CheckGrant(grant, r, ctx);
      if checked.Stop? then checked else CheckScope(grant, r, s)
  }

  // References ----------------------------------------------------------------------------------------------

  /** The record a reference names, in the collection of the given kind. */
  predicate InCollection(s: Snapshot, kind: Kind, ref: Str) {
    match kind
    case LoopRef => ref == s.loopRef
    case GoalRef => ref in s.goals
    case HostResourceRef => ref in s.hosts
    case ExternalEffectRef => ref in s.effects
    case AttemptRef => ref in s.attempts
    case ResultRef => ref in s.results
    case ReportRef => ref in s.reports
    case ArtifactRef => ref in s.artifacts
    case ReviewRef => ref in s.reviews
    case FinalizationRef => ref in s.finalizations
  }

  /** `_subject_record` searches the collections in declaration order. */
  function RevisionOf(s: Snapshot, subject: Subject): Option<nat> {
    match subject
    case ExecutionSubject => Some(s.execution.revision)
    case ClosureSubject => Some(s.closure.revision)
    case PlanSubject => Some(s.plan.revision)
    case RecordSubject(ref) =>
      if ref == s.loopRef then Some(s.loopRevision)
      else if ref in s.goals then Some(s.goals[ref].revision)
      else if ref in s.hosts then Some(s.hosts[ref].revision)
      else if ref in s.effects then Some(s.effects[ref].revision)
      else if ref in s.attempts then Some(s.attempts[ref].revision)
      else if ref in s.results then Some(s.results[ref].revision)
      else if ref in s.reports then Some(s.reports[ref].revision)
      else if ref in s.artifacts then Some(s.artifacts[ref].revision)
      else if ref in s.reviews then Some(s.reviews[ref].revision)
      else if ref in s.finalizations then Some(s.finalizations[ref].revision)
      else None
  }

  /** The loop over `expected_subject_revisions`, in order. */
  function CheckRevisions(s: Snapshot, expected: seq<(Subject, nat)>): Check {
    if expected == [] then Pass
    else
      var actual := RevisionOf(s, expected[0].0);
      if actual.None? then Check.Stop(Rejected(ForeignReference))
      else if actual.value != expected[0].1 then Check.Stop(Rejected(StaleSubjectRevision))
      else CheckRevisions(s, expected[1..])
  }

  /** Bindings may only name records of this loop, except those about to be allocated and the receipt. */
  predicate BindingsKnown(s: Snapshot, r: Request) {
    && (forall f | f in r.resolved :: BindingKnown(s, r, f))
    && (forall name | name in r.others :: OtherKnown(s, r, name))
  }

  /** Further entries of `receipt_refs`, some of whose names are not looked at. */
  predicate OtherKnown(s: Snapshot, r: Request, name: string)
    requires name in r.others
  {
    var ref := r.others[name];
    || "new_" <= name || name in {"provider_idempotency_key", "receipt"}
    || KindOf(ref).None?
    || ref == r.loop
    || (name == "target_ref" && Find(r.allocate, NewHost) == Some(ref))
    || RevisionOf(s, RecordSubject(ref)).Some?
  }

  predicate BindingKnown(s: Snapshot, r: Request, f: Field)
    requires f in r.resolved
  {
    var ref := r.resolved[f];
    || KindOf(ref).None?
    || ref == r.loop
    || (f == TargetRef && Find(r.allocate, NewHost) == Some(ref))
    || RevisionOf(s, RecordSubject(ref)).Some?
  }

  /** `validate_references` */
  function ValidateReferences(s: Option<Snapshot>, r: Request): Check {
    if KindOf(r.subject) != Some(r.kind) then Check.Stop(Rejected(WrongReferenceKind))
    else if r.kind == LoopRef && r.subject != r.loop then Check.Stop(Rejected(ForeignReference))
    else if r.kind != LoopRef && (s.None? || !InCollection(s.value, r.kind, r.subject)) then
      Check.Stop(Rejected(ForeignReference))
    else if s.None? then Pass
    else
      var stale := CheckRevisions(s.value, r.expectedSubjects);
      if stale.Stop? then stale else Need(BindingsKnown(s.value, r), ForeignReference)
  }

  // Receipts ------------------------------------------------------------------------------------------------

  /** What a receipt must be about; absent parts are not compared. */
  datatype About = About(
    action: Str, subject: Str, attempt: Option<Str>, target: Option<Str>, request: Option<Str>)

  predicate Concerns(receipt: Receipt, loop: Str, about: About) {
    && receipt.action == about.action && receipt.loop == loop && receipt.subject == about.subject
    && (about.attempt.Some? ==> receipt.attempt == about.attempt)
    && (about.target.Some? ==> receipt.target == about.target)
    && (about.request.Some? ==> receipt.request == about.request)
  }

  /** `_receipt` */
  function ReceiptFor(r: Request, ctx: Context, about: About): Result<Receipt> {
    if r.receipt.None? || !Truthy(r.receipt.value) || r.receipt.value !in ctx.receipts then Err(Rejected(ReceiptRequired))
    else
      var receipt := ctx.receipts[r.receipt.value];
      if receipt.encoding.Unencoded? then Err(Rejected(CodeOf(receipt.encoding.defect)))
      else if !receipt.withinSize then Err(Rejected(ResourceLimitExceeded))
      else if !Vouched(ctx.roots, Issuer(ReceiptTrust, receipt.issuer), receipt.issuerTrust) then
        Err(Rejected(ReceiptIssuerUntrusted))
      else if r.issuedAt < receipt.notBefore || r.issuedAt > receipt.expires then Err(Rejected(ReceiptExpired))
      else if !Concerns(receipt, r.loop, about) then Err(Rejected(ReceiptIdentityMismatch))
      else Ok(receipt)
  }

  /** `_binding` */
  function Bound<K>(m: map<K, Str>, k: K): Result<Str> {
    if k in m then Ok(m[k]) else Err(Rejected(InvalidCommand))
  }
}
