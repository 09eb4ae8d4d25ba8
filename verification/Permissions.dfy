/** What the authority, reference and receipt checks let through, said without them. */
module Permissions {
  import opened Base
  import opened Records
  import opened Commands
  import opened Authority
  import opened Kernel
  import opened PlanProgress

  function Refuse(code: ErrorCode): Check { Check.Stop(Rejected(code)) }

  // Plan selectors ---------------------------------------------------------------------------------------------

  const DERIVED := {ArtifactRef, AttemptRef, ExternalEffectRef, GoalRef, HostResourceRef, ReportRef, ResultRef, ReviewRef}

  /** The reference of a planned goal's own chain, materialised or not. */
  predicate OfPlannedGoal(p: Plan, loop: Str, kind: Kind, subject: Str)
    requires |p.ids| == |p.slices|
  {
    && kind in DERIVED
    && exists i :: 0 <= i < |p.ids| && subject == PlanRef(kind, GoalIdentity(loop, p.planDigest, p.ids[i], p.slices[i]))
  }

  /** The reference of a repair of a materialised goal, at an ordinal below its attempt limit; V2 plans only. */
  predicate OfRepair(p: Plan, goals: map<Str, Goal>, loop: Str, kind: Kind, subject: Str) {
    && p.capacity == CapacityV2 && kind in DERIVED - {GoalRef} && subject.RepairRef? && subject.repairKind == kind
    && subject.repair.loop == loop && subject.repair.plan == p.planDigest
    && subject.repair.goalRef in goals && subject.repair.goalId == goals[subject.repair.goalRef].goalId
    && 1 <= subject.repair.ordinal < goals[subject.repair.goalRef].maxAttempts
  }

  /** What a selector for the plan of a loop selects there. */
  predicate Selected(s: Snapshot, loop: Str, kind: Kind, subject: Str, includeLoop: bool)
    requires |s.plan.ids| == |s.plan.slices|
  {
    match kind
    case LoopRef => includeLoop && subject == loop
    case FinalizationRef => includeLoop && subject == LoopFinalRef(loop, s.plan.planDigest)
    case _ => OfPlannedGoal(s.plan, loop, kind, subject) || OfRepair(s.plan, s.goals, loop, kind, subject)
  }

  lemma PlannedExactly(p: Plan, loop: Str, kind: Kind, subject: Str)
    requires |p.ids| == |p.slices|
    ensures subject in PlannedSubjects(p, loop, kind) <==> OfPlannedGoal(p, loop, kind, subject)
  {
    if OfPlannedGoal(p, loop, kind, subject) {
      var i :| 0 <= i < |p.ids| && subject == PlanRef(kind, GoalIdentity(loop, p.planDigest, p.ids[i], p.slices[i]));
      assert subject == PlannedRef(p, loop, kind, i);
    }
  }

  lemma RepairExactly(p: Plan, goals: map<Str, Goal>, loop: Str, kind: Kind, subject: Str)
    ensures subject in RepairSubjects(p, loop, goals, kind) <==> OfRepair(p, goals, loop, kind, subject)
  {
    if OfRepair(p, goals, loop, kind, subject) {
      var g, n := subject.repair.goalRef, subject.repair.ordinal;
      assert subject == RepairRef(kind, RepairIdentity(loop, p.planDigest, g, goals[g].goalId, n));
    }
  }

  /** On a loop with an intact plan, a selector admits a command exactly if it names this plan, with as many goals, and
      selects the subject; otherwise it answers that the scope does not match. */
  lemma SelectorExactly(planDigest: Str, indexMax: int, includeLoop: bool, r: Request, s: Snapshot)
    requires SnapshotPlanInv(s)
    ensures |s.plan.ids| == |s.plan.slices|
    ensures CheckSelector(planDigest, indexMax, includeLoop, r, s)
            == if planDigest == s.plan.planDigest && indexMax + 1 == s.plan.goalCount
                  && Selected(s, r.loop, r.kind, r.subject, includeLoop)
               then Pass else Refuse(AuthorityScopeMismatch)
  {
    ShapeOf(s);
    PlannedExactly(s.plan, r.loop, r.kind, r.subject);
    RepairExactly(s.plan, s.goals, r.loop, r.kind, r.subject);
    hide PlannedSubjects, RepairSubjects, OfPlannedGoal, OfRepair, SnapshotPlanInv;
  }

  lemma ShapeOf(s: Snapshot)
    requires SnapshotPlanInv(s)
    ensures |s.plan.ids| == |s.plan.slices| == s.plan.goalCount
  {
    hide NoRepeats, GoalAt;
  }

  // Actors and grants ------------------------------------------------------------------------------------------

  /** The scope of a grant admits the subject. The loop to be created is only within the scope of a selector for the
      plan it is created with. */
  predicate InScope(scope: Scope, r: Request, s: Option<Snapshot>)
    requires s.Some? ==> |s.value.plan.ids| == |s.value.plan.slices|
  {
    match scope
    case InvalidSelector => false
    case ExactSubjects(subjects) => subjects == {} || r.subject in subjects
    case PlanSelector(digest, indexMax, includeLoop) =>
      if s.Some? then
        && digest == s.value.plan.planDigest && indexMax + 1 == s.value.plan.goalCount
        && Selected(s.value, r.loop, r.kind, r.subject, includeLoop)
      else
        && includeLoop && r.kind == LoopRef && r.subject == r.loop && r.payload.Create?
        && digest == r.payload.startup.planDigest && indexMax + 1 == r.payload.startup.goalCount
  }

  /** The actor is registered under its own name, and a trust root vouches for its issuer. */
  predicate ActorVouched(r: Request, ctx: Context) {
    && r.actor in ctx.actors && ctx.actors[r.actor].ref == r.actor
    && Issuer(ActorTrust, ctx.actors[r.actor].issuer) in ctx.roots
    && ctx.roots[Issuer(ActorTrust, ctx.actors[r.actor].issuer)] == ctx.actors[r.actor].issuerTrust
  }

  /** It is also bound to the loop. */
  predicate ActorStands(r: Request, ctx: Context) { ActorVouched(r, ctx) && ctx.actors[r.actor].namespace == r.loop }

  /** The grant is this actor's, issued by a registered actor that a trust root vouches for. */
  predicate GrantVouched(r: Request, ctx: Context) {
    && r.grant in ctx.grants && ctx.grants[r.grant].actor == r.actor && ctx.grants[r.grant].issuer in ctx.actors
    && Issuer(GrantTrust, ctx.grants[r.grant].issuer) in ctx.roots
    && ctx.roots[Issuer(GrantTrust, ctx.grants[r.grant].issuer)] == ctx.grants[r.grant].issuerTrust
  }

  /** It is also genuine, current, and about this loop, this type of command and this kind of subject. */
  predicate GrantStands(r: Request, ctx: Context) {
    && GrantVouched(r, ctx)
    && var grant := ctx.grants[r.grant];
       && grant.encoding.Encoded? && grant.intact && grant.notBefore <= r.issuedAt <= grant.expires
       && grant.loop == r.loop && TypeOf(r.payload) in grant.commands && r.kind in grant.kinds
  }

  /** Everything that has to hold of who issues a command on what. */
  predicate Permitted(r: Request, ctx: Context, s: Option<Snapshot>)
    requires s.Some? ==> |s.value.plan.ids| == |s.value.plan.slices|
  {
    ActorStands(r, ctx) && GrantStands(r, ctx) && InScope(ctx.grants[r.grant].scope, r, s)
  }

  lemma ScopeExactly(g: Grant, r: Request, s: Option<Snapshot>)
    requires s.Some? ==> SnapshotPlanInv(s.value)
    ensures s.Some? ==> |s.value.plan.ids| == |s.value.plan.slices|
    ensures CheckScope(g, r, s) == Pass <==> InScope(g.scope, r, s)
    ensures CheckScope(g, r, s) in {Pass, Refuse(AuthorityScopeMismatch), Refuse(InvalidAuthority)}
  {
    if s.Some? {
      ShapeOf(s.value);
      if g.scope.PlanSelector? {
        SelectorExactly(g.scope.planDigest, g.scope.indexMax, g.scope.includeLoop, r, s.value);
      }
    }
    hide CheckSelector, Selected, SnapshotPlanInv;
  }

  /** The authority check passes exactly for permitted commands. */
  lemma AuthorityExactly(r: Request, ctx: Context, s: Option<Snapshot>)
    requires s.Some? ==> SnapshotPlanInv(s.value)
    ensures s.Some? ==> |s.value.plan.ids| == |s.value.plan.slices|
    ensures ValidateAuthority(r, ctx, s) == Pass <==> Permitted(r, ctx, s)
  {
    if s.Some? { ShapeOf(s.value); }
    if r.grant in ctx.grants { ScopeExactly(ctx.grants[r.grant], r, s); }
    hide CheckScope, InScope, SnapshotPlanInv;
  }

  /** Once actor and grant stand, the grant's scope decides. */
  lemma ScopeDecides(r: Request, ctx: Context, s: Option<Snapshot>)
    requires ActorStands(r, ctx) && GrantStands(r, ctx)
    ensures ValidateAuthority(r, ctx, s) == CheckScope(ctx.grants[r.grant], r, s)
  {
    hide CheckScope;
  }

  /** What the authority check answers: an unknown or untrusted actor or grant and a damaged grant are INVALID_AUTHORITY, a
      grant out of its time AUTHORITY_EXPIRED, and whatever lies outside the actor's loop or the grant's scope is a scope
      mismatch, judged in this order. */
  lemma AuthorityAnswers(r: Request, ctx: Context, s: Option<Snapshot>)
    requires s.Some? ==> SnapshotPlanInv(s.value)
    ensures s.Some? ==> |s.value.plan.ids| == |s.value.plan.slices|
    ensures ValidateAuthority(r, ctx, s)
            == if !ActorVouched(r, ctx) then Refuse(InvalidAuthority)
               else if ctx.actors[r.actor].namespace != r.loop then Refuse(AuthorityScopeMismatch)
               else if !GrantVouched(r, ctx) then Refuse(InvalidAuthority)
               else
                 var grant := ctx.grants[r.grant];
                 if grant.encoding.Unencoded? then Refuse(CodeOf(grant.encoding.defect))
                 else if !grant.intact then Refuse(InvalidAuthority)
                 else if !(grant.notBefore <= r.issuedAt <= grant.expires) then Refuse(AuthorityExpired)
                 else if grant.loop != r.loop || TypeOf(r.payload) !in grant.commands || r.kind !in grant.kinds then
                   Refuse(AuthorityScopeMismatch)
                 else if grant.scope == InvalidSelector then Refuse(InvalidAuthority)
                 else if InScope(grant.scope, r, s) then Pass else Refuse(AuthorityScopeMismatch)
  {
    if s.Some? { ShapeOf(s.value); }
    if r.grant in ctx.grants {
      var scope := ctx.grants[r.grant].scope;
      if s.Some? && scope.PlanSelector? {
        SelectorExactly(scope.planDigest, scope.indexMax, scope.includeLoop, r, s.value);
      }
    }
    hide CheckSelector, Selected, SnapshotPlanInv, TypeOf;
  }

  // References -------------------------------------------------------------------------------------------------

  /** Some record is kept under the reference. */
  predicate Recorded(s: Snapshot, ref: Str) {
    || ref == s.loopRef || ref in s.goals || ref in s.hosts || ref in s.effects || ref in s.attempts || ref in s.results
    || ref in s.reports || ref in s.artifacts || ref in s.reviews || ref in s.finalizations
  }

  /** Some record under the reference has the revision. */
  predicate RecordedAt(s: Snapshot, ref: Str, n: nat) {
    || (ref == s.loopRef && s.loopRevision == n)
    || (ref in s.goals && s.goals[ref].revision == n) || (ref in s.hosts && s.hosts[ref].revision == n)
    || (ref in s.effects && s.effects[ref].revision == n) || (ref in s.attempts && s.attempts[ref].revision == n)
    || (ref in s.results && s.results[ref].revision == n) || (ref in s.reports && s.reports[ref].revision == n)
    || (ref in s.artifacts && s.artifacts[ref].revision == n) || (ref in s.reviews && s.reviews[ref].revision == n)
    || (ref in s.finalizations && s.finalizations[ref].revision == n)
  }

  /** The revision of a subject: of the section it names, or of a record kept under its reference. */
  lemma RevisionExactly(s: Snapshot, ref: Str)
    ensures RevisionOf(s, ExecutionSubject) == Some(s.execution.revision)
    ensures RevisionOf(s, ClosureSubject) == Some(s.closure.revision) && RevisionOf(s, PlanSubject) == Some(s.plan.revision)
    ensures RevisionOf(s, RecordSubject(ref)).Some? <==> Recorded(s, ref)
    ensures RevisionOf(s, RecordSubject(ref)).Some? ==> RecordedAt(s, ref, RevisionOf(s, RecordSubject(ref)).value)
  {
  }

  lemma {:induction false} RevisionsExactly(s: Snapshot, expected: seq<(Subject, nat)>)
    ensures CheckRevisions(s, expected) == Pass
            <==> forall k :: 0 <= k < |expected| ==> RevisionOf(s, expected[k].0) == Some(expected[k].1)
  {
    hide RevisionOf;
    if expected != [] { RevisionsExactly(s, expected[1..]); }
  }

  /** The record under a reference of each kind. */
  predicate SubjectRecorded(s: Snapshot, kind: Kind, ref: Str) {
    && (kind == GoalRef ==> ref in s.goals) && (kind == HostResourceRef ==> ref in s.hosts)
    && (kind == ExternalEffectRef ==> ref in s.effects) && (kind == AttemptRef ==> ref in s.attempts)
    && (kind == ResultRef ==> ref in s.results) && (kind == ReportRef ==> ref in s.reports)
    && (kind == ArtifactRef ==> ref in s.artifacts) && (kind == ReviewRef ==> ref in s.reviews)
    && (kind == FinalizationRef ==> ref in s.finalizations)
  }

  /** A name that a command may mention: no reference, or one that is recorded, or the host about to be created. */
  predicate MayMention(s: Snapshot, r: Request, ref: Str, asTarget: bool) {
    KindOf(ref).Some? ==>
      ref == r.loop || Recorded(s, ref) || (asTarget && NewHost in r.allocate && r.allocate[NewHost] == ref)
  }

  /** The subject is of its kind and recorded, the revisions the command expects are the current ones, and every
      reference it mentions is known; of further receipt entries, those named `new_…`, `provider_idempotency_key` and
      `receipt` are not looked at. */
  predicate Referenced(s: Option<Snapshot>, r: Request) {
    && KindOf(r.subject) == Some(r.kind)
    && (if r.kind == LoopRef then r.subject == r.loop else s.Some? && SubjectRecorded(s.value, r.kind, r.subject))
    && (s.Some? ==>
          && (forall k :: 0 <= k < |r.expectedSubjects| ==>
                RevisionOf(s.value, r.expectedSubjects[k].0) == Some(r.expectedSubjects[k].1))
          && (forall f :: f in r.resolved ==> MayMention(s.value, r, r.resolved[f], f == TargetRef))
          && (forall name :: name in r.others ==>
                "new_" <= name || name == "provider_idempotency_key" || name == "receipt"
                || MayMention(s.value, r, r.others[name], name == "target_ref")))
  }

  lemma MentionExactly(s: Snapshot, r: Request)
    ensures BindingsKnown(s, r)
            <==> && (forall f :: f in r.resolved ==> MayMention(s, r, r.resolved[f], f == TargetRef))
                 && (forall name :: name in r.others ==>
                       "new_" <= name || name == "provider_idempotency_key" || name == "receipt"
                       || MayMention(s, r, r.others[name], name == "target_ref"))
  {
    forall f | f in r.resolved ensures BindingKnown(s, r, f) <==> MayMention(s, r, r.resolved[f], f == TargetRef) {
      RevisionExactly(s, r.resolved[f]);
      hide RevisionOf, Recorded, RecordedAt;
    }
    forall name | name in r.others
      ensures OtherKnown(s, r, name)
              <==> || "new_" <= name || name == "provider_idempotency_key" || name == "receipt"
                   || MayMention(s, r, r.others[name], name == "target_ref")
    {
      RevisionExactly(s, r.others[name]);
      hide RevisionOf, Recorded, RecordedAt;
    }
    hide BindingKnown, OtherKnown, MayMention;
  }

  /** The reference check passes exactly for commands whose references are in order. */
  lemma ReferencesExactly(s: Option<Snapshot>, r: Request)
    ensures ValidateReferences(s, r) == Pass <==> Referenced(s, r)
  {
    hide BindingsKnown, CheckRevisions, MayMention, RevisionOf;
    if s.Some? {
      RevisionsExactly(s.value, r.expectedSubjects);
      MentionExactly(s.value, r);
    }
  }

  lemma {:induction false} RevisionsAnswer(s: Snapshot, expected: seq<(Subject, nat)>)
    ensures CheckRevisions(s, expected).Stop? ==>
              exists k :: 0 <= k < |expected| && CheckRevisions(s, expected) == RevisionAnswer(s, expected[k])
                          && forall j :: 0 <= j < k ==> RevisionOf(s, expected[j].0) == Some(expected[j].1)
  {
    hide RevisionOf;
    if expected != [] && CheckRevisions(s, expected).Stop? {
      if RevisionOf(s, expected[0].0) == Some(expected[0].1) {
        RevisionsAnswer(s, expected[1..]);
        var k :| 0 <= k < |expected| - 1 && CheckRevisions(s, expected) == RevisionAnswer(s, expected[1..][k])
                 && forall j :: 0 <= j < k ==> RevisionOf(s, expected[1..][j].0) == Some(expected[1..][j].1);
        assert expected[k + 1] == expected[1..][k];
        forall j | 0 <= j < k + 1 ensures RevisionOf(s, expected[j].0) == Some(expected[j].1) {
          if j > 0 { assert expected[j] == expected[1..][j - 1]; }
        }
      } else {
        assert CheckRevisions(s, expected) == RevisionAnswer(s, expected[0]);
      }
    }
  }

  /** A subject that is not there is foreign, one at another revision stale. */
  function RevisionAnswer(s: Snapshot, e: (Subject, nat)): Check {
    var actual := RevisionOf(s, e.0);
    if actual.None? then Refuse(ForeignReference) else if actual.value != e.1 then Refuse(StaleSubjectRevision) else Pass
  }

  /** What the reference check answers: a subject of another kind, a foreign one, the first expected revision in order that
      is missing or stale, a foreign binding. */
  lemma ReferencesAnswer(s: Option<Snapshot>, r: Request)
    requires ValidateReferences(s, r).Stop?
    ensures if KindOf(r.subject) != Some(r.kind) then ValidateReferences(s, r) == Refuse(WrongReferenceKind)
            else if r.kind == LoopRef && r.subject != r.loop then ValidateReferences(s, r) == Refuse(ForeignReference)
            else if r.kind != LoopRef && !(s.Some? && SubjectRecorded(s.value, r.kind, r.subject)) then
              ValidateReferences(s, r) == Refuse(ForeignReference)
            else
              && s.Some?
              && if forall k :: 0 <= k < |r.expectedSubjects| ==>
                      RevisionOf(s.value, r.expectedSubjects[k].0) == Some(r.expectedSubjects[k].1)
                 then ValidateReferences(s, r) == Refuse(ForeignReference)
                 else exists k ::
                        && 0 <= k < |r.expectedSubjects|
                        && ValidateReferences(s, r) == RevisionAnswer(s.value, r.expectedSubjects[k])
                        && forall j :: 0 <= j < k ==>
                             RevisionOf(s.value, r.expectedSubjects[j].0) == Some(r.expectedSubjects[j].1)
  {
    hide BindingsKnown, CheckRevisions, RevisionOf, RevisionAnswer;
    if s.Some? {
      RevisionsExactly(s.value, r.expectedSubjects);
      RevisionsAnswer(s.value, r.expectedSubjects);
    }
  }

  // Receipts ---------------------------------------------------------------------------------------------------

  /** The receipt a command names is registered, well formed, vouched for by a trust root and current. */
  predicate ReceiptStands(r: Request, ctx: Context) {
    && r.receipt.Some? && r.receipt.value != Text("") && r.receipt.value in ctx.receipts
    && var receipt := ctx.receipts[r.receipt.value];
       && receipt.encoding.Encoded? && receipt.withinSize
       && Issuer(ReceiptTrust, receipt.issuer) in ctx.roots
       && ctx.roots[Issuer(ReceiptTrust, receipt.issuer)] == receipt.issuerTrust
       && receipt.notBefore <= r.issuedAt <= receipt.expires
  }

  /** The receipt is about this action on this subject of this loop. */
  predicate Attests(receipt: Receipt, loop: Str, action: Str, subject: Str) {
    receipt.action == action && receipt.loop == loop && receipt.subject == subject
  }

  /** A receipt is found exactly if it stands and attests the action, as far as the action compares. */
  lemma ReceiptExactly(r: Request, ctx: Context, about: About)
    ensures ReceiptFor(r, ctx, about).Ok?
            <==> && ReceiptStands(r, ctx)
                 && var receipt := ctx.receipts[r.receipt.value];
                    && Attests(receipt, r.loop, about.action, about.subject)
                    && (about.attempt.Some? ==> receipt.attempt == about.attempt)
                    && (about.target.Some? ==> receipt.target == about.target)
                    && (about.request.Some? ==> receipt.request == about.request)
    ensures ReceiptFor(r, ctx, about).Ok? ==> ReceiptFor(r, ctx, about).value == ctx.receipts[r.receipt.value]
  {
  }

  /** What is answered without such a receipt: RECEIPT_REQUIRED when there is none, the size limit, an untrusted issuer,
      RECEIPT_EXPIRED out of its time, and RECEIPT_IDENTITY_MISMATCH when it is about something else, in this order. */
  lemma ReceiptAnswers(r: Request, ctx: Context, about: About)
    requires ReceiptFor(r, ctx, about).Err?
    ensures ReceiptFor(r, ctx, about).failure
            == if r.receipt.None? || r.receipt.value == Text("") || r.receipt.value !in ctx.receipts then
                 Rejected(ReceiptRequired)
               else
                 var receipt := ctx.receipts[r.receipt.value];
                 if receipt.encoding.Unencoded? then Rejected(CodeOf(receipt.encoding.defect))
                 else if !receipt.withinSize then Rejected(ResourceLimitExceeded)
                 else if Issuer(ReceiptTrust, receipt.issuer) !in ctx.roots
                         || ctx.roots[Issuer(ReceiptTrust, receipt.issuer)] != receipt.issuerTrust then
                   Rejected(ReceiptIssuerUntrusted)
                 else if r.issuedAt < receipt.notBefore || receipt.expires < r.issuedAt then Rejected(ReceiptExpired)
                 else Rejected(ReceiptIdentityMismatch)
  {
  }
}
