/** Concrete runs showing where tempting claims fail: a loop created or continued under an empty name leaves its route,
    and a stopped plan can still be finalised as SUCCEEDED. */
module Counterexamples {
  import opened Base
  import opened Records
  import opened Commands
  import opened Authority
  import opened Kernel
  import opened Transitions
  import opened PlanProgress
  import opened EffectCoupling
  import opened ResultBinding
  import opened ClosureBacking
  import opened Invariant
  import opened Runs
  import opened Safety
  import opened StorageMode

  const LOOP := Named(LoopRef, "1")
  const ACTOR := Text("author")
  const GRANT := Text("all")
  const D := Digest(ObjectiveText(""))
  const RESULT := Named(ResultRef, "1")
  const REPORT := Named(ReportRef, "1")
  const ARTIFACT := Named(ArtifactRef, "1")
  const REVIEW := Named(ReviewRef, "1")
  const FINAL := Named(FinalizationRef, "1")

  const ISSUER := Text("issuer")
  const TRUSTED := Text("trusted")

  const EVERY_COMMAND := {
    CreateLoop, RecordExternalEffectObservation, StageExternalResult, AcknowledgeResult, RecordReview,
    RecordPolicyDecision, AdvanceGoal, PauseLoop, ResumeLoop, ReviseGoalPlan, StopLoop, PrepareFinalization,
    CloseExecution, StrengthenClosureAssurance}
  const EVERY_KIND := {
    LoopRef, GoalRef, HostResourceRef, ExternalEffectRef, AttemptRef, ResultRef, ReportRef, ArtifactRef, ReviewRef,
    FinalizationRef}

  /** The chain of a planned goal. */
  function ChainFor(id: Str): Chain { GoalChain(LOOP, D, id, D) }

  function Confirmation(): Receipt {
    Receipt(Text("confirm"), true, ISSUER, TRUSTED, StrictTrust, CONFIRM_START, LOOP, LOOP, None, Some(D), Some(D), None,
            None, SeenObserved, 0, 0, D, Encoded("confirm"))
  }

  function Sighting(id: Str): Receipt {
    var c := ChainFor(id);
    Receipt(Text("seen"), true, ISSUER, TRUSTED, StrictTrust, CREATE_TASK, LOOP, c.effectRef, Some(c.attemptRef),
            Some(c.providerTarget), Some(D), Some(c.providerKey), Some(Text("task")), SeenObserved, 0, 0, D,
            Encoded("seen"))
  }

  function Verification(): Receipt {
    Receipt(Text("verified"), true, ISSUER, TRUSTED, StrictTrust, VERIFY_ARTIFACT, LOOP, ARTIFACT, None, None, Some(D),
            None, None, SeenObserved, 0, 0, D, Encoded("verified"))
  }

  /** An author who may do everything, and the three receipts the runs use. */
  function Ctx(id: Str): Context {
    Context(map[ACTOR := Actor(ACTOR, LOOP, ISSUER, TRUSTED, Encoded("author"))],
            map[GRANT := Grant(GRANT, ACTOR, ACTOR, TRUSTED, true, 0, 0, LOOP, EVERY_COMMAND, EVERY_KIND,
                               ExactSubjects({}), Encoded("all"))],
            map[Text("confirm") := Confirmation(), Text("seen") := Sighting(id), Text("verified") := Verification()],
            map[Issuer(ActorTrust, ISSUER) := TRUSTED, Issuer(GrantTrust, ACTOR) := TRUSTED,
                Issuer(ReceiptTrust, ISSUER) := TRUSTED],
            (s: set<Str>) => None)
  }

  function Cmd(kind: Kind, subject: Str, revision: nat, allocate: map<Slot, Str>, resolved: map<Field, Str>,
               receipt: Option<Str>, payload: Payload): Command
  {
    Command(Request(Text("operation"), ACTOR, GRANT, LOOP, kind, subject, revision, [], 0, allocate, resolved, receipt,
                    map[], payload), None, None, true)
  }

  /** The shape of every command of the runs. */
  predicate Issued(c: Command) {
    && c.request.actor == ACTOR && c.request.grant == GRANT && c.request.loop == LOOP && c.request.issuedAt == 0
    && c.defect.None? && c.unencodable.None? && c.sealed && c.request.expectedSubjects == []
  }

  /** All commands of the runs pass the authority check. */
  lemma Authorised(s: Option<Snapshot>, id: Str, c: Command)
    requires Issued(c)
    ensures ValidateAuthority(c.request, Ctx(id), s) == Pass
  {
    var t := TypeOf(c.request.payload);
    assert t in EVERY_COMMAND;
    EveryKind(c.request.kind);
  }

  lemma EveryKind(k: Kind)
    ensures k in EVERY_KIND
  {
    match k
    case LoopRef => case GoalRef => case HostResourceRef => case ExternalEffectRef => case AttemptRef =>
    case ResultRef => case ReportRef => case ArtifactRef => case ReviewRef => case FinalizationRef =>
  }

  /** Known references pass the reference check. */
  lemma Referred(s: Snapshot, r: Request)
    requires KindOf(r.subject) == Some(r.kind) && r.expectedSubjects == [] && BindingsKnown(s, r)
    requires if r.kind == LoopRef then r.subject == r.loop else InCollection(s, r.kind, r.subject)
    ensures ValidateReferences(Some(s), r) == Pass
  {
    hide BindingsKnown, InCollection;
  }

  /** The reducer decides about a well-formed, authorised command on known references. */
  lemma Dispatched(s: Snapshot, id: Str, c: Command, t: Reduced)
    requires Issued(c)
    requires KindOf(c.request.subject) == Some(c.request.kind) && c.request.kind != LoopRef
    requires InCollection(s, c.request.kind, c.request.subject) && BindingsKnown(s, c.request)
    requires Dispatch(s, c.request, Ctx(id)) == Ok(t) && |t.events| <= 16
    ensures Reduce(Some(s), c, Ctx(id)) == Ok(Renumbered(t, c.request.expectedRevision + 1))
  {
    Authorised(Some(s), id, c);
    Referred(s, c.request);
    hide Dispatch, ValidateAuthority, ValidateReferences, AfterCreate, Ctx;
  }

  // Creation ---------------------------------------------------------------------------------------------------

  function Payload1(ids: seq<Str>): Startup
    requires ids != []
  {
    Startup("work", ["work"], false, 1, true, |ids|, 0, 0, ids[0], D, ids, seq(|ids|, i => D), D, D, D, D, |ids|, 1, 0, D,
            Required, 1, CapacityV2)
  }

  function CreateCommand(ids: seq<Str>): Command
    requires ids != []
  {
    var c := ChainFor(ids[0]);
    Cmd(LoopRef, LOOP, 0,
        map[NewAttempt := c.attemptRef, NewEffect := c.effectRef, NewGoal := c.goalRef, NewHost := c.hostRef,
            ProviderIdempotencyKey := c.providerKey],
        map[BoundaryDigest := D, PreparedBundle := D, PreparedManifest := D, ProviderAction := CREATE_TASK,
            RequestDigest := D, TargetRef := c.providerTarget],
        Some(Text("confirm")), Create(Payload1(ids)))
  }

  /** The snapshot creation leaves. */
  function Fresh(ids: seq<Str>): Snapshot
    requires ids != []
  {
    var c := ChainFor(ids[0]);
    var r := CreateCommand(ids).request;
    var request := ProviderRequest(0, Text("UNBOUND"), ids[0], D, D, D, First, c.providerTarget, D);
    Snapshot(LOOP, 1, map[c.goalRef := InitialGoal(Payload1(ids), c)],
             map[c.effectRef := NewEffectRecord(c, CREATE_TASK, None)],
             map[c.attemptRef := NewAttemptRecord(r, c, CREATE_TASK, 1, request, D)],
             map[], map[], map[], map[], map[], map[], Execution(Running, None, 1, None, None, None),
             Closure(NoStrength, None, None, 0), InitialPlan(Payload1(ids), c.goalRef), None, None,
             Some(StartAuthorization(D, D, D, Text("confirm"))))
  }

  lemma PlanIsValid(ids: seq<Str>)
    requires 1 <= |ids| <= 128 && NoRepeats(ids)
    ensures ValidObjective(Payload1(ids)) && ValidPlanIdentity(Payload1(ids))
  {
    NoRepeatsMeansDistinct(ids);
    assert "work"[0] == 'w';
    hide Distinct;
  }

  lemma CreateIsConfirmed(ids: seq<Str>)
    requires ids != []
    ensures StartupReceipt(CreateCommand(ids).request, Ctx(ids[0])) == Ok(StartAuthorization(D, D, D, Text("confirm")))
    ensures StartupBaseline(CreateCommand(ids).request) == Ok(None)
  {
    var r := CreateCommand(ids).request;
    assert ReceiptFor(r, Ctx(ids[0]), About(CONFIRM_START, r.loop, None, Some(D), Some(D))) == Ok(Confirmation());
  }

  lemma CreateReduces(ids: seq<Str>)
    requires 1 <= |ids| <= 128 && NoRepeats(ids)
    ensures AfterCreate(None, CreateCommand(ids).request, Ctx(ids[0]), Payload1(ids)).Ok?
    ensures AfterCreate(None, CreateCommand(ids).request, Ctx(ids[0]), Payload1(ids)).value.snapshot
            == Fresh(ids).(loopRevision := 0)
    ensures |AfterCreate(None, CreateCommand(ids).request, Ctx(ids[0]), Payload1(ids)).value.events| == 6
  {
    hide StartupReceipt, Ctx, StartupBaseline, ReceiptFor, ValidObjective, ValidPlanIdentity, InitialGoal, InitialPlan, NewEffectRecord,
         NewAttemptRecord, NoRepeats;
    PlanIsValid(ids);
    CreateIsConfirmed(ids);
  }

  lemma FreshFits(ids: seq<Str>)
    requires 1 <= |ids| <= 128
    ensures Fits(Fresh(ids)) && Fresh(ids).loopRevision == 1
  {
  }

  lemma CreateCommits(ids: seq<Str>)
    requires 1 <= |ids| <= 128 && NoRepeats(ids)
    ensures Commit(None, Input(CreateCommand(ids), Ctx(ids[0]))).Ok?
    ensures Commit(None, Input(CreateCommand(ids), Ctx(ids[0]))).value.snapshot == Fresh(ids)
  {
    hide AfterCreate, ValidateAuthority, Dispatch, InitialGoal, NewEffectRecord, NewAttemptRecord, Fresh, Ctx, ChainFor,
         NoRepeats;
    CreateReduces(ids);
    Authorised(None, ids[0], CreateCommand(ids));
    FreshFits(ids);
  }

  /** A loop may be created with an empty goal id, and is then malformed. */
  lemma EmptyIdIsMalformed()
    ensures var run := [Input(CreateCommand([Text("")]), Ctx(Text("")))];
            After(run).Some? && ModeOf(Some(StoredOf(After(run).value))) == MalformedMode
  {
    var ids := [Text("")];
    var i := Input(CreateCommand(ids), Ctx(ids[0]));
    CreateCommits(ids);
    var t := Commit(None, i).value;
    CreateMode(i, t);
    assert !AllTruthy(ids);
    hide Commit, ModeOf, StoredOf;
    assert [i][..0] == [];
    LastCommand([i]);
  }

  // The rest of the run ----------------------------------------------------------------------------------------

  /** A loop whose first goal is active, with one effect, as far as the next commands look. */
  predicate Begun(s: Snapshot, ids: seq<Str>)
    requires ids != []
  {
    var c := ChainFor(ids[0]);
    && s.loopRef == LOOP && s.plan == InitialPlan(Payload1(ids), c.goalRef)
    && s.goals == map[c.goalRef := InitialGoal(Payload1(ids), c)]
    && s.effects.Keys == {c.effectRef} && s.attempts.Keys == {c.attemptRef}
    && s.effects[c.effectRef].attemptRef == c.attemptRef && s.effects[c.effectRef].goalRef == c.goalRef
    && s.effects[c.effectRef].hostRef == c.hostRef
    && s.reviews == map[] && s.finalizations == map[] && s.execution.state == Running
  }

  lemma FreshIsBegun(ids: seq<Str>)
    requires ids != []
    ensures Begun(Fresh(ids), ids) && Fresh(ids).hosts == map[] && Fresh(ids).results == map[]
    ensures var a := Fresh(ids).attempts[ChainFor(ids[0]).attemptRef];
            a.action == CREATE_TASK && a.target == ChainFor(ids[0]).providerTarget && a.requestDigest == D
            && a.key == ChainFor(ids[0]).providerKey && a.state == Committed
  {
  }

  lemma OnlyOne<T>(x: T)
    ensures Only({x}) == Some(x)
  {
  }

  lemma BegunIsActive(s: Snapshot, ids: seq<Str>)
    requires ids != [] && Begun(s, ids)
    ensures Only(ActiveGoals(s.goals)) == Some(ChainFor(ids[0]).goalRef)
  {
    assert ActiveGoals(s.goals) == {ChainFor(ids[0]).goalRef};
    OnlyOne(ChainFor(ids[0]).goalRef);
  }

  function ObserveCommand(id: Str): Command {
    Cmd(ExternalEffectRef, ChainFor(id).effectRef, 1, map[], map[], Some(Text("seen")), Observe)
  }

  /** Observed, with no evidence yet. */
  predicate Seen(s: Snapshot, ids: seq<Str>)
    requires ids != []
  {
    && Begun(s, ids) && ChainFor(ids[0]).effectRef in s.effects
    && s.effects[ChainFor(ids[0]).effectRef].state == Observed && ChainFor(ids[0]).hostRef in s.hosts && s.results == map[]
    && s.currentResult == None
  }

  lemma ObserveReduces(ids: seq<Str>)
    requires ids != []
    ensures var t := AfterObserve(Fresh(ids), ObserveCommand(ids[0]).request, Ctx(ids[0]));
            t.Ok? && Seen(t.value.snapshot, ids) && |t.value.events| == 2
  {
    hide InitialGoal, InitialPlan, Payload1, GoalChain, ReceiptOfEffect;
    FreshIsBegun(ids);
    var c := ChainFor(ids[0]);
    SightingIsReceived(ids[0], Fresh(ids).effects[c.effectRef], Fresh(ids).attempts[c.attemptRef]);
  }

  lemma SightingIsReceived(id: Str, effect: Effect, attempt: Attempt)
    requires var c := ChainFor(id);
             && effect.attemptRef == c.attemptRef && attempt.action == CREATE_TASK && attempt.target == c.providerTarget
             && attempt.requestDigest == D && attempt.key == c.providerKey
    ensures ReceiptOfEffect(ObserveCommand(id).request, Ctx(id), effect, attempt) == Ok(Sighting(id))
  {
    var r := ObserveCommand(id).request;
    var c := ChainFor(id);
    assert ReceiptFor(r, Ctx(id), About(CREATE_TASK, c.effectRef, Some(c.attemptRef), Some(c.providerTarget), Some(D)))
           == Ok(Sighting(id));
    hide ReceiptFor;
  }

  function StageCommand(id: Str, result: Str): Command {
    Cmd(ExternalEffectRef, ChainFor(id).effectRef, 2, map[NewResult := result, NewReport := REPORT],
        map[SourceObservation := D], None, Stage(PassOutcome, "done"))
  }

  predicate StagedOne(s: Snapshot, ids: seq<Str>, ref: Str)
    requires ids != []
  {
    && Begun(s, ids) && ChainFor(ids[0]).hostRef in s.hosts && s.effects[ChainFor(ids[0]).effectRef].state == Observed
    && s.results.Keys == {ref} && s.currentResult == Some(ref) && REPORT in s.reports
    && var result := s.results[ref];
       && result.attemptRef == ChainFor(ids[0]).attemptRef && result.effectRef == ChainFor(ids[0]).effectRef
       && result.goalRef == ChainFor(ids[0]).goalRef && result.reportRef == REPORT && result.outcome == PassOutcome
  }

  lemma StageReduces(s: Snapshot, ids: seq<Str>, ref: Str)
    requires ids != [] && Seen(s, ids)
    ensures var t := AfterStage(s, StageCommand(ids[0], ref).request, PassOutcome, "done");
            && t.Ok? && StagedOne(t.value.snapshot, ids, ref) && |t.value.events| == 2
            && t.value.snapshot.results[ref].state == Staged && !t.value.snapshot.reports[REPORT].accepted
  {
    hide ActiveGoals, Only, InitialGoal, InitialPlan, Payload1, GoalChain;
    BegunIsActive(s, ids);
    assert "done"[0] == 'd';
  }

  const ACKNOWLEDGE_COMMAND := Cmd(
    ResultRef, RESULT, 3, map[NewArtifact := ARTIFACT],
    map[ArtifactDigest := D, CaptureState := CAPTURED, ArtifactProfile := Text("non_git"), ManifestDigest := D,
        VerificationDigest := D, VerificationState := Text("VERIFIED")],
    Some(Text("verified")), Acknowledge)

  /** Acknowledged, so that the whole result chain exists. */
  predicate Evidenced(s: Snapshot, ids: seq<Str>)
    requires ids != []
  {
    && StagedOne(s, ids, RESULT) && s.results[RESULT].state == Acknowledged
    && s.results[RESULT].artifactRef == Some(ARTIFACT) && ARTIFACT in s.artifacts
  }

  lemma AcknowledgeReduces(s: Snapshot, ids: seq<Str>)
    requires ids != [] && StagedOne(s, ids, RESULT) && s.results[RESULT].state == Staged && !s.reports[REPORT].accepted
    ensures var t := AfterAcknowledge(s, ACKNOWLEDGE_COMMAND.request, Ctx(ids[0]));
            t.Ok? && |t.value.events| == 4 && t.value.snapshot.results[RESULT].artifactRef == Some(ARTIFACT)
  {
    hide Acknowledgement, Begun, ChainFor, Ctx;
    ArtifactIsVerified(ids[0]);
  }

  lemma ArtifactIsVerified(id: Str)
    ensures var a := Acknowledgement(ACKNOWLEDGE_COMMAND.request, Ctx(id));
            a.Ok? && a.value.0 == ARTIFACT && a.value.1.capture == CAPTURED && a.value.1.verified
  {
    var r := ACKNOWLEDGE_COMMAND.request;
    assert ReceiptFor(r, Ctx(id), About(VERIFY_ARTIFACT, ARTIFACT, None, None, Some(D))) == Ok(Verification());
    hide ReceiptFor;
  }

  lemma AcknowledgeMoves(s: Snapshot, ids: seq<Str>, t: Reduced)
    requires ids != [] && StagedOne(s, ids, RESULT)
    requires AfterAcknowledge(s, ACKNOWLEDGE_COMMAND.request, Ctx(ids[0])) == Ok(t)
    requires t.snapshot.results[RESULT].artifactRef == Some(ARTIFACT)
    ensures Evidenced(t.snapshot, ids)
  {
    hide AfterAcknowledge, Begun, Ctx, StagedOne, AcknowledgesResult, Quiet;
    AcknowledgeDelta(s, ACKNOWLEDGE_COMMAND.request, Ctx(ids[0]), t);
    AcknowledgedStands(s, t.snapshot, ids);
  }

  lemma AcknowledgedStands(s: Snapshot, u: Snapshot, ids: seq<Str>)
    requires ids != [] && StagedOne(s, ids, RESULT) && AcknowledgesResult(s, u, RESULT)
    requires u.results[RESULT].artifactRef == Some(ARTIFACT)
    ensures Evidenced(u, ids)
  {
    hide ChainFor, InitialGoal, InitialPlan, Payload1;
  }

  const REVIEW_COMMAND := Cmd(ResultRef, RESULT, 4, map[NewReview := REVIEW], map[], None, Judge(PassVerdict))

  predicate Reviewed(s: Snapshot, ids: seq<Str>)
    requires ids != []
  {
    && s.loopRef == LOOP && s.results.Keys == {RESULT} && s.currentResult == Some(RESULT)
    && s.reviews.Keys == {REVIEW} && s.finalizations == map[] && ChainStands(s, ids)
    && s.reviews[REVIEW].resultRef == RESULT && s.reviews[REVIEW].reportRef == REPORT
    && s.reviews[REVIEW].artifactRef == ARTIFACT && s.reviews[REVIEW].verdict == PassVerdict
  }

  /** The records that the result's chain runs through. */
  predicate ChainStands(s: Snapshot, ids: seq<Str>)
    requires ids != [] && RESULT in s.results
  {
    var c, result := ChainFor(ids[0]), s.results[RESULT];
    && result.attemptRef == c.attemptRef && result.effectRef == c.effectRef && result.goalRef == c.goalRef
    && result.reportRef == REPORT && result.outcome == PassOutcome && result.state == Acknowledged
    && result.artifactRef == Some(ARTIFACT) && ARTIFACT in s.artifacts && REPORT in s.reports
    && c.goalRef in s.goals && c.attemptRef in s.attempts && c.hostRef in s.hosts && c.effectRef in s.effects
    && s.effects[c.effectRef].goalRef == c.goalRef && s.effects[c.effectRef].hostRef == c.hostRef
    && s.effects[c.effectRef].state == Observed
  }

  lemma ChainResolves(s: Snapshot, ids: seq<Str>)
    requires ids != [] && RESULT in s.results && ChainStands(s, ids) && s.currentResult == Some(RESULT)
    ensures ResultChain(s).Ok?
    ensures ResultChain(s).value.result.ref == RESULT && ResultChain(s).value.goal.ref == ChainFor(ids[0]).goalRef
    ensures ResultChain(s).value.effect.ref == ChainFor(ids[0]).effectRef && ResultChain(s).value.artifact.ref == ARTIFACT
  {
  }

  lemma EvidenceStands(s: Snapshot, ids: seq<Str>)
    requires ids != [] && Evidenced(s, ids)
    ensures ChainStands(s, ids)
  {
    hide InitialGoal, InitialPlan;
  }

  lemma ReviewReduces(s: Snapshot, ids: seq<Str>)
    requires ids != [] && Evidenced(s, ids)
    ensures var t := AfterReview(s, REVIEW_COMMAND.request, PassVerdict);
            && t.Ok? && Reviewed(t.value.snapshot, ids) && |t.value.events| == 1
            && t.value.snapshot.plan == s.plan && t.value.snapshot.goals == s.goals
            && t.value.snapshot.execution == s.execution && t.value.snapshot.effects.Keys == s.effects.Keys
            && t.value.snapshot.attempts.Keys == s.attempts.Keys
  {
    hide ResultChain, InitialGoal, InitialPlan, Payload1, GoalChain;
    EvidenceStands(s, ids);
    ChainResolves(s, ids);
  }

  function AdvanceCommand(ids: seq<Str>): Command
    requires |ids| == 2
  {
    var c := ChainFor(ids[1]);
    Cmd(GoalRef, ChainFor(ids[0]).goalRef, 5,
        map[NewAttempt := c.attemptRef, NewEffect := c.effectRef, NewGoal := c.goalRef, NewHost := c.hostRef,
            ProviderIdempotencyKey := c.providerKey],
        map[ReviewBinding := REVIEW, NextGoalId := ids[1], NextSlice := D, ProviderTarget := c.providerTarget,
            PlanDigest := D, IndexDigest := D, WorkspaceIdentity := D, NextObjective := D, RequestDigest := D,
            BaselineBlob := D, ArtifactProfile := Text("non_git")],
        None, Advance(Done))
  }

  /** The first goal is DONE, the second one active. */
  predicate Moved1(s: Snapshot, ids: seq<Str>)
    requires |ids| == 2
  {
    && Reviewed(s, ids) && s.execution.state == Running
    && s.goals.Keys == {ChainFor(ids[0]).goalRef, ChainFor(ids[1]).goalRef}
    && s.goals[ChainFor(ids[0]).goalRef].state == Done && s.goals[ChainFor(ids[1]).goalRef].state == Active
  }

  lemma NextIsDescribed(p: Plan, ids: seq<Str>)
    requires |ids| == 2 && p == InitialPlan(Payload1(ids), ChainFor(ids[0]).goalRef)
    ensures var r := AdvanceCommand(ids).request;
            DescribesNext(r, p, ChainFor(ids[1]), ids[1], D) && NextMaxAttemptsOf(r.resolved) == Some(1)
  {
    var r := AdvanceCommand(ids).request;
    assert NextRequirementOf(r.resolved) == Some(Required) && NextMaxAttemptsOf(r.resolved) == Some(1);
    hide NextRequirementOf, NextMaxAttemptsOf;
  }

  lemma NextIsMaterialised(s: Snapshot, ids: seq<Str>)
    requires |ids| == 2 && NoRepeats(ids)
    requires s.goals.Keys == {ChainFor(ids[0]).goalRef}
    requires s.effects.Keys == {ChainFor(ids[0]).effectRef} && s.attempts.Keys == {ChainFor(ids[0]).attemptRef}
    ensures MaterializesNext(AdvanceCommand(ids).request, s, ChainFor(ids[1]))
  {
  }

  lemma NextReduces(s: Snapshot, ids: seq<Str>)
    requires |ids| == 2 && NoRepeats(ids) && s.loopRef == LOOP
    requires s.plan == InitialPlan(Payload1(ids), ChainFor(ids[0]).goalRef)
    requires s.goals.Keys == {ChainFor(ids[0]).goalRef}
    requires s.effects.Keys == {ChainFor(ids[0]).effectRef} && s.attempts.Keys == {ChainFor(ids[0]).attemptRef}
    ensures NextGoal(s, AdvanceCommand(ids).request, ChainFor(ids[0]).goalRef, Done).Ok?
  {
    NextIsDescribed(s.plan, ids);
    NextIsMaterialised(s, ids);
    hide NewEffectRecord, NewAttemptRecord, DescribesNext, NextMaxAttemptsOf, NextRequirementOf, AdvanceCommand, NoRepeats;
  }

  lemma AdvanceSucceeds(s: Snapshot, r: Request)
    requires r.subject in s.goals && s.goals[r.subject].state == Active && Find(r.resolved, ReviewBinding) == Some(REVIEW)
    requires REVIEW in s.reviews && RESULT in s.results && s.reviews[REVIEW].resultRef == RESULT
    requires var v, result := s.reviews[REVIEW], s.results[RESULT];
             && result.state == Acknowledged && v.reportRef == result.reportRef && Some(v.artifactRef) == result.artifactRef
             && result.effectRef in s.effects && result.goalRef == r.subject && s.effects[result.effectRef].goalRef == r.subject
             && result.outcome == PassOutcome && v.verdict == PassVerdict
    requires s.plan.activeIndex == 0 && |s.plan.ids| == |s.plan.slices| == s.plan.goalCount == 2
             && s.plan.activeGoalRef == r.subject
    requires NextGoal(s.(goals := s.goals[r.subject := Moved(s, r.subject, Done)]), r, r.subject, Done).Ok?
    ensures AfterAdvance(s, r, Done).Ok? && |AfterAdvance(s, r, Done).value.events| == 4
  {
    hide NextGoal;
  }

  lemma AdvanceReduces(s: Snapshot, ids: seq<Str>)
    requires |ids| == 2 && NoRepeats(ids) && Reviewed(s, ids) && s.execution.state == Running
    requires s.plan == InitialPlan(Payload1(ids), ChainFor(ids[0]).goalRef)
    requires s.goals == map[ChainFor(ids[0]).goalRef := InitialGoal(Payload1(ids), ChainFor(ids[0]))]
    requires s.effects.Keys == {ChainFor(ids[0]).effectRef} && s.attempts.Keys == {ChainFor(ids[0]).attemptRef}
    ensures var t := AfterAdvance(s, AdvanceCommand(ids).request, Done); t.Ok? && |t.value.events| == 4
  {
    var g := ChainFor(ids[0]).goalRef;
    var r := AdvanceCommand(ids).request;
    assert r.subject == g && Find(r.resolved, ReviewBinding) == Some(REVIEW);
    var advanced := s.(goals := s.goals[g := Moved(s, g, Done)]);
    assert advanced.goals.Keys == {g};
    assert s.goals[g].state == Active && s.plan.activeIndex == 0 && s.plan.activeGoalRef == g;
    assert |s.plan.ids| == |s.plan.slices| == s.plan.goalCount == 2;
    hide NextGoal, AdvanceCommand, InitialGoal, InitialPlan, Payload1, GoalChain, NoRepeats, AfterAdvance;
    NextReduces(advanced, ids);
    AdvanceSucceeds(s, r);
  }

  lemma AdvanceMoves(s: Snapshot, ids: seq<Str>, t: Reduced)
    requires |ids| == 2 && NoRepeats(ids) && Reviewed(s, ids) && s.execution.state == Running
    requires s.plan == InitialPlan(Payload1(ids), ChainFor(ids[0]).goalRef)
    requires s.goals == map[ChainFor(ids[0]).goalRef := InitialGoal(Payload1(ids), ChainFor(ids[0]))]
    requires AfterAdvance(s, AdvanceCommand(ids).request, Done) == Ok(t)
    ensures Moved1(t.snapshot, ids)
  {
    hide AfterAdvance, Quiet, LeavesPlan, MaterializesGoal, Reviewed, Moved1, Moved, AdvanceCommand, ChainFor, Payload1,
         InitialPlan, InitialGoal;
    AdvanceTarget(s, ids);
    AdvanceDelta(s, AdvanceCommand(ids).request, Done, t);
    MovedStands(s, ids, t.snapshot);
  }

  lemma AdvanceTarget(s: Snapshot, ids: seq<Str>)
    requires |ids| == 2 && s.plan == InitialPlan(Payload1(ids), ChainFor(ids[0]).goalRef)
    ensures AdvanceCommand(ids).request.subject == ChainFor(ids[0]).goalRef && !LeavesPlan(s, Done)
  {
  }

  lemma MovedStands(s: Snapshot, ids: seq<Str>, u: Snapshot)
    requires |ids| == 2 && NoRepeats(ids) && Reviewed(s, ids) && s.execution.state == Running
    requires s.plan == InitialPlan(Payload1(ids), ChainFor(ids[0]).goalRef) && s.goals.Keys == {ChainFor(ids[0]).goalRef}
    requires MaterializesGoal(s, u, ChainFor(ids[0]).goalRef, Done)
    ensures Moved1(u, ids)
  {
    hide FreshPair;
    assert ChainFor(ids[1]) == GoalChain(s.loopRef, s.plan.planDigest, s.plan.ids[1], s.plan.slices[1]);
  }

  const STOP_COMMAND := Cmd(LoopRef, LOOP, 6, map[], map[], None, StopNow("enough"))

  /** The second goal was stopped. */
  predicate Abandoned(s: Snapshot, ids: seq<Str>)
    requires |ids| == 2
  {
    && Reviewed(s, ids) && s.execution.state == Terminal
    && s.goals.Keys == {ChainFor(ids[0]).goalRef, ChainFor(ids[1]).goalRef}
    && s.goals[ChainFor(ids[0]).goalRef].state == Done && s.goals[ChainFor(ids[1]).goalRef].state == Halted
  }

  lemma StopReduces(s: Snapshot, ids: seq<Str>)
    requires |ids| == 2 && NoRepeats(ids) && Moved1(s, ids)
    ensures var t := AfterStop(s, "enough"); t.Ok? && Abandoned(t.value.snapshot, ids) && |t.value.events| == 2
  {
    var g := ChainFor(ids[1]).goalRef;
    assert ActiveGoals(s.goals) == {g};
    OnlyOne(g);
    assert ids[0] != ids[1];
    assert "enough"[0] == 'e';
    hide Only, ActiveGoals;
  }

  const PREPARE_COMMAND := Cmd(LoopRef, LOOP, 7, map[NewFinalization := FINAL], map[], None, Prepare(Succeeded))

  lemma PrepareReduces(s: Snapshot, ids: seq<Str>)
    requires |ids| == 2 && Abandoned(s, ids)
    ensures var t := AfterPrepare(s, PREPARE_COMMAND.request, Succeeded);
            && t.Ok? && |t.value.events| == 1 && FINAL in t.value.snapshot.finalizations
            && t.value.snapshot.finalizations[FINAL].disposition == Succeeded && t.value.snapshot.goals == s.goals
  {
    hide ResultChain, Only, InitialGoal, InitialPlan, Payload1, GoalChain;
    ChainResolves(s, ids);
    assert ReviewsOf(s, RESULT) == {REVIEW};
    OnlyOne(REVIEW);
    hide ReviewsOf;
  }

  // Runs -------------------------------------------------------------------------------------------------------

  /** The reducer decides about a lifecycle command on the loop itself. */
  lemma DispatchedOnLoop(s: Snapshot, id: Str, c: Command, t: Reduced)
    requires Issued(c)
    requires c.request.kind == LoopRef && c.request.subject == LOOP && BindingsKnown(s, c.request)
    requires Dispatch(s, c.request, Ctx(id)) == Ok(t) && |t.events| <= 16
    ensures Reduce(Some(s), c, Ctx(id)) == Ok(Renumbered(t, c.request.expectedRevision + 1))
  {
    Authorised(Some(s), id, c);
    Referred(s, c.request);
    hide Dispatch, ValidateAuthority, ValidateReferences, AfterCreate, Ctx;
  }

  /** Few records, so the snapshot can be encoded. */
  predicate Few(s: Snapshot, ids: seq<Str>, ref: Str)
    requires ids != []
  {
    var c, d := ChainFor(ids[0]), ChainFor(ids[|ids| - 1]);
    && s.goals.Keys <= {c.goalRef, d.goalRef} && s.effects.Keys <= {c.effectRef, d.effectRef}
    && s.attempts.Keys <= {c.attemptRef, d.attemptRef} && s.hosts.Keys <= {c.hostRef} && s.results.Keys <= {ref}
    && s.reports.Keys <= {REPORT} && s.artifacts.Keys <= {ARTIFACT} && s.reviews.Keys <= {REVIEW}
    && s.finalizations.Keys <= {FINAL} && |s.plan.ids| <= 2 && |s.plan.slices| <= 2 && s.policy == None
  }

  lemma AtMostPair<T>(a: set<T>, x: T, y: T)
    requires a <= {x, y}
    ensures |a| <= 2
  {
    var rest := a - {x};
    assert rest <= {y};
    assert rest == {} || rest == {y};
    assert a <= rest + {x};
    if x in a { assert a == rest + {x}; } else { assert a == rest; }
  }

  lemma FewFits(s: Snapshot, ids: seq<Str>, ref: Str)
    requires ids != [] && Few(s, ids, ref)
    ensures Fits(s)
  {
    var c, d := ChainFor(ids[0]), ChainFor(ids[|ids| - 1]);
    AtMostPair(s.goals.Keys, c.goalRef, d.goalRef);
    AtMostPair(s.effects.Keys, c.effectRef, d.effectRef);
    AtMostPair(s.attempts.Keys, c.attemptRef, d.attemptRef);
    AtMostPair(s.hosts.Keys, c.hostRef, c.hostRef);
    AtMostPair(s.results.Keys, ref, ref);
    AtMostPair(s.reports.Keys, REPORT, REPORT);
    AtMostPair(s.artifacts.Keys, ARTIFACT, ARTIFACT);
    AtMostPair(s.reviews.Keys, REVIEW, REVIEW);
    AtMostPair(s.finalizations.Keys, FINAL, FINAL);
    assert |s.goals| == |s.goals.Keys| && |s.effects| == |s.effects.Keys| && |s.attempts| == |s.attempts.Keys|;
    assert |s.hosts| == |s.hosts.Keys| && |s.results| == |s.results.Keys| && |s.reports| == |s.reports.Keys|;
    assert |s.artifacts| == |s.artifacts.Keys| && |s.reviews| == |s.reviews.Keys|;
    assert |s.finalizations| == |s.finalizations.Keys|;
  }

  lemma CommitsAs(s: Option<Snapshot>, i: Input, t: Reduced)
    requires Reduce(s, i.command, i.context) == Ok(t) && Fits(t.snapshot)
    ensures Commit(s, i) == Ok(t)
  {
    hide Reduce, Fits;
  }

  lemma FreshIsFew(ids: seq<Str>, ref: Str)
    requires 1 <= |ids| <= 2
    ensures Few(Fresh(ids), ids, ref)
  {
  }

  /** The subject and the references of a command are known to the loop. */
  predicate Addressed(s: Snapshot, c: Command) {
    && Issued(c) && BindingsKnown(s, c.request)
    && (if c.request.kind == LoopRef then c.request.subject == LOOP
        else KindOf(c.request.subject) == Some(c.request.kind) && InCollection(s, c.request.kind, c.request.subject))
  }

  /** What the reducer accepts, of a few records, is committed. */
  lemma CommitDispatched(s: Snapshot, c: Command, d: Reduced, ids: seq<Str>, ref: Str)
    requires ids != [] && Addressed(s, c) && Dispatch(s, c.request, Ctx(ids[0])) == Ok(d) && |d.events| <= 16
    requires Few(d.snapshot, ids, ref)
    ensures Commit(Some(s), Input(c, Ctx(ids[0]))) == Ok(Renumbered(d, c.request.expectedRevision + 1))
  {
    hide Dispatch, Reduce, Fits, Few, BindingsKnown, InCollection, Commit, Issued;
    if c.request.kind == LoopRef { DispatchedOnLoop(s, ids[0], c, d); } else { Dispatched(s, ids[0], c, d); }
    FewRenumbered(d, c.request.expectedRevision + 1, ids, ref);
    var t := Renumbered(d, c.request.expectedRevision + 1);
    FewFits(t.snapshot, ids, ref);
    CommitsAs(Some(s), Input(c, Ctx(ids[0])), t);
  }

  lemma FewRenumbered(d: Reduced, revision: nat, ids: seq<Str>, ref: Str)
    requires ids != [] && Few(d.snapshot, ids, ref)
    ensures Few(Renumbered(d, revision).snapshot, ids, ref)
  {
    hide GoalChain;
  }

  lemma ObserveFew(ids: seq<Str>, ref: Str, d: Reduced)
    requires 1 <= |ids| <= 2 && AfterObserve(Fresh(ids), ObserveCommand(ids[0]).request, Ctx(ids[0])) == Ok(d)
    ensures Few(d.snapshot, ids, ref)
  {
    ObserveDelta(Fresh(ids), ObserveCommand(ids[0]).request, Ctx(ids[0]), d);
    FreshIsFew(ids, ref);
    FreshIsBegun(ids);
    hide AfterObserve, Fresh, InitialGoal, InitialPlan;
  }

  lemma ObserveIsAddressed(ids: seq<Str>)
    requires ids != []
    ensures Addressed(Fresh(ids), ObserveCommand(ids[0]))
  {
  }

  lemma ObserveCommits(ids: seq<Str>, ref: Str) returns (t: Reduced)
    requires 1 <= |ids| <= 2
    ensures Commit(Some(Fresh(ids)), Input(ObserveCommand(ids[0]), Ctx(ids[0]))) == Ok(t)
    ensures Seen(t.snapshot, ids) && Few(t.snapshot, ids, ref)
  {
    hide AfterObserve, Commit, Begun, Fresh, Addressed, Few;
    ObserveReduces(ids);
    ObserveIsAddressed(ids);
    var d := AfterObserve(Fresh(ids), ObserveCommand(ids[0]).request, Ctx(ids[0])).value;
    ObserveFew(ids, ref, d);
    CommitDispatched(Fresh(ids), ObserveCommand(ids[0]), d, ids, ref);
    FewRenumbered(d, 2, ids, ref);
    t := Renumbered(d, 2);
    BegunRenumbered(d, 2, ids);
  }

  lemma BegunRenumbered(d: Reduced, revision: nat, ids: seq<Str>)
    requires ids != [] && Begun(d.snapshot, ids)
    ensures Begun(Renumbered(d, revision).snapshot, ids)
  {
    hide InitialGoal, InitialPlan;
  }

  lemma StageFew(s: Snapshot, ids: seq<Str>, ref: Str, d: Reduced)
    requires ids != [] && Few(s, ids, ref) && StagedOne(d.snapshot, ids, ref)
    requires AfterStage(s, StageCommand(ids[0], ref).request, PassOutcome, "done") == Ok(d)
    ensures Few(d.snapshot, ids, ref)
  {
    hide AfterStage, StagesResult, StagedOne, Few, Quiet, ChainFor;
    StageDelta(s, StageCommand(ids[0], ref).request, PassOutcome, "done", d);
    StagedIsFew(s, d.snapshot, ids, StageCommand(ids[0], ref).request.subject, ref);
  }

  lemma StagedIsFew(s: Snapshot, u: Snapshot, ids: seq<Str>, effect: Str, ref: Str)
    requires ids != [] && Few(s, ids, ref) && StagesResult(s, u, effect, ref) && StagedOne(u, ids, ref)
    ensures Few(u, ids, ref)
  {
    hide ChainFor, Begun, Only, ActiveGoals;
  }

  lemma StageIsAddressed(s: Snapshot, ids: seq<Str>, ref: Str)
    requires ids != [] && Seen(s, ids)
    ensures Addressed(s, StageCommand(ids[0], ref))
  {
    hide Begun;
  }

  lemma StageCommits(s: Snapshot, ids: seq<Str>, ref: Str) returns (t: Reduced)
    requires 1 <= |ids| <= 2 && Seen(s, ids) && Few(s, ids, ref)
    ensures Commit(Some(s), Input(StageCommand(ids[0], ref), Ctx(ids[0]))) == Ok(t)
    ensures StagedOne(t.snapshot, ids, ref) && Few(t.snapshot, ids, ref)
    ensures t.snapshot.results[ref].state == Staged && !t.snapshot.reports[REPORT].accepted
  {
    hide AfterStage, Commit, Begun, Addressed, Few;
    StageReduces(s, ids, ref);
    StageIsAddressed(s, ids, ref);
    var d := AfterStage(s, StageCommand(ids[0], ref).request, PassOutcome, "done").value;
    StageFew(s, ids, ref, d);
    CommitDispatched(s, StageCommand(ids[0], ref), d, ids, ref);
    FewRenumbered(d, 3, ids, ref);
    t := Renumbered(d, 3);
    BegunRenumbered(d, 3, ids);
  }

  lemma {:induction false} RunGrows(run: seq<Input>, i: Input, t: Reduced)
    requires Commit(After(run), i) == Ok(t)
    ensures After(run + [i]) == Some(t.snapshot)
  {
    hide Commit;
    assert (run + [i])[..|run|] == run;
    LastCommand(run + [i]);
  }

  /** Creation and observation. */
  lemma TwoSteps(ids: seq<Str>, ref: Str) returns (run: seq<Input>, seen: Snapshot)
    requires 1 <= |ids| <= 2 && NoRepeats(ids)
    ensures |run| == 2 && After(run) == Some(seen) && Seen(seen, ids) && Few(seen, ids, ref)
  {
    var ctx := Ctx(ids[0]);
    var first, second := Input(CreateCommand(ids), ctx), Input(ObserveCommand(ids[0]), ctx);
    hide Commit, Fresh, Seen, Few, CreateCommand, ObserveCommand, Ctx, NoRepeats;
    CreateCommits(ids);
    RunGrows([], first, Commit(None, first).value);
    assert [] + [first] == [first];
    var t := ObserveCommits(ids, ref);
    RunGrows([first], second, t);
    run, seen := [first] + [second], t.snapshot;
  }

  /** Creation, observation, and a staged result. */
  lemma ThreeSteps(ids: seq<Str>, ref: Str) returns (run: seq<Input>, seen: Snapshot, staged: Snapshot)
    requires 1 <= |ids| <= 2 && NoRepeats(ids)
    ensures |run| == 3 && After(run[..2]) == Some(seen) && After(run) == Some(staged)
    ensures Seen(seen, ids) && StagedOne(staged, ids, ref) && Few(staged, ids, ref)
    ensures staged.results[ref].state == Staged && !staged.reports[REPORT].accepted
  {
    hide Commit, Seen, Few, StageCommand, Ctx, Begun;
    var two;
    two, seen := TwoSteps(ids, ref);
    var u := StageCommits(seen, ids, ref);
    hide StagedOne;
    RunGrows(two, Input(StageCommand(ids[0], ref), Ctx(ids[0])), u);
    run, staged := two + [Input(StageCommand(ids[0], ref), Ctx(ids[0]))], u.snapshot;
    assert run[..2] == two;
  }

  /** A result may be staged under an empty reference, and the loop is then malformed. */
  lemma EmptyResultIsMalformed() returns (run: seq<Input>)
    ensures |run| == 3 && After(run[..2]).Some? && After(run).Some?
    ensures ModeOf(Some(StoredOf(After(run[..2]).value))) == ContentMode
    ensures ModeOf(Some(StoredOf(After(run).value))) == MalformedMode
  {
    var ids := [Text("g000")];
    hide Commit, Seen, StagedOne, ModeOf, StoredOf, Grounded, Runs.After, Few;
    var seen, staged;
    run, seen, staged := ThreeSteps(ids, Text(""));
    ReachableMode(run[..2]);
    ReachableMode(run);
    SeenIsNamed(seen, ids);
    StagedIsUnnamed(staged, ids);
  }

  lemma SeenIsNamed(s: Snapshot, ids: seq<Str>)
    requires ids == [Text("g000")] && Seen(s, ids)
    ensures StorageMode.Named(s)
  {
    hide InitialGoal;
  }

  lemma StagedIsUnnamed(s: Snapshot, ids: seq<Str>)
    requires ids != [] && StagedOne(s, ids, Text(""))
    ensures !StorageMode.Named(s)
  {
    hide InitialGoal, Begun;
  }

  // To the finalization ----------------------------------------------------------------------------------------

  lemma AcknowledgeFew(s: Snapshot, ids: seq<Str>, d: Reduced)
    requires ids != [] && StagedOne(s, ids, RESULT) && Few(s, ids, RESULT)
    requires AfterAcknowledge(s, ACKNOWLEDGE_COMMAND.request, Ctx(ids[0])) == Ok(d) && Evidenced(d.snapshot, ids)
    ensures Few(d.snapshot, ids, RESULT)
  {
    hide AfterAcknowledge, Begun, Ctx, StagedOne, AcknowledgesResult, Quiet, Few;
    AcknowledgeDelta(s, ACKNOWLEDGE_COMMAND.request, Ctx(ids[0]), d);
    AcknowledgedIsFew(s, d.snapshot, ids);
  }

  lemma AcknowledgedIsFew(s: Snapshot, u: Snapshot, ids: seq<Str>)
    requires ids != [] && StagedOne(s, ids, RESULT) && Few(s, ids, RESULT) && AcknowledgesResult(s, u, RESULT)
    requires Evidenced(u, ids)
    ensures Few(u, ids, RESULT)
  {
    hide ChainFor, Begun;
  }

  lemma AcknowledgeIsAddressed(s: Snapshot, ids: seq<Str>)
    requires ids != [] && StagedOne(s, ids, RESULT)
    ensures Addressed(s, ACKNOWLEDGE_COMMAND)
  {
    hide Begun, RevisionOf;
  }

  lemma AcknowledgeCommits(s: Snapshot, ids: seq<Str>) returns (t: Reduced)
    requires ids != [] && StagedOne(s, ids, RESULT) && Few(s, ids, RESULT)
    requires s.results[RESULT].state == Staged && !s.reports[REPORT].accepted
    ensures Commit(Some(s), Input(ACKNOWLEDGE_COMMAND, Ctx(ids[0]))) == Ok(t)
    ensures Evidenced(t.snapshot, ids) && Few(t.snapshot, ids, RESULT)
  {
    hide AfterAcknowledge, Commit, Begun, Few, Ctx, Addressed;
    AcknowledgeReduces(s, ids);
    var d := AfterAcknowledge(s, ACKNOWLEDGE_COMMAND.request, Ctx(ids[0])).value;
    AcknowledgeMoves(s, ids, d);
    AcknowledgeFew(s, ids, d);
    AcknowledgeIsAddressed(s, ids);
    CommitDispatched(s, ACKNOWLEDGE_COMMAND, d, ids, RESULT);
    FewRenumbered(d, 4, ids, RESULT);
    BegunRenumbered(d, 4, ids);
    t := Renumbered(d, 4);
  }

  /** The plan is still where it began. */
  predicate AtStart(s: Snapshot, ids: seq<Str>)
    requires ids != []
  {
    && s.plan == InitialPlan(Payload1(ids), ChainFor(ids[0]).goalRef) && s.execution.state == Running
    && s.goals == map[ChainFor(ids[0]).goalRef := InitialGoal(Payload1(ids), ChainFor(ids[0]))]
    && s.effects.Keys == {ChainFor(ids[0]).effectRef} && s.attempts.Keys == {ChainFor(ids[0]).attemptRef}
  }

  lemma EvidencedIsAtStart(s: Snapshot, ids: seq<Str>)
    requires ids != [] && Evidenced(s, ids)
    ensures AtStart(s, ids)
  {
    hide InitialGoal, InitialPlan;
  }

  lemma ReviewFew(s: Snapshot, ids: seq<Str>, d: Reduced)
    requires ids != [] && Few(s, ids, RESULT) && AfterReview(s, REVIEW_COMMAND.request, PassVerdict) == Ok(d)
    ensures Few(d.snapshot, ids, RESULT)
  {
    ReviewDelta(s, REVIEW_COMMAND.request, PassVerdict, d);
    hide AfterReview, GoalChain, ResultChain;
  }

  lemma ReviewIsAddressed(s: Snapshot, ids: seq<Str>)
    requires ids != [] && Evidenced(s, ids)
    ensures Addressed(s, REVIEW_COMMAND)
  {
    hide Begun;
  }

  lemma ReviewCommits(s: Snapshot, ids: seq<Str>) returns (t: Reduced)
    requires ids != [] && Evidenced(s, ids) && Few(s, ids, RESULT)
    ensures Commit(Some(s), Input(REVIEW_COMMAND, Ctx(ids[0]))) == Ok(t)
    ensures Reviewed(t.snapshot, ids) && AtStart(t.snapshot, ids) && Few(t.snapshot, ids, RESULT)
  {
    hide AfterReview, Commit, Few, Ctx, Addressed, InitialPlan, InitialGoal;
    ReviewReduces(s, ids);
    EvidencedIsAtStart(s, ids);
    ReviewIsAddressed(s, ids);
    hide Evidenced;
    var d := AfterReview(s, REVIEW_COMMAND.request, PassVerdict).value;
    ReviewFew(s, ids, d);
    CommitDispatched(s, REVIEW_COMMAND, d, ids, RESULT);
    FewRenumbered(d, 5, ids, RESULT);
    t := Renumbered(d, 5);
  }

  lemma AdvanceFew(s: Snapshot, ids: seq<Str>, d: Reduced)
    requires |ids| == 2 && Few(s, ids, RESULT) && AtStart(s, ids) && s.loopRef == LOOP
    requires AfterAdvance(s, AdvanceCommand(ids).request, Done) == Ok(d)
    ensures Few(d.snapshot, ids, RESULT)
  {
    AdvanceDelta(s, AdvanceCommand(ids).request, Done, d);
    hide AfterAdvance, FreshPair, NextInLine, InitialGoal;
    assert !LeavesPlan(s, Done);
  }

  lemma AdvanceIsAddressed(s: Snapshot, ids: seq<Str>)
    requires |ids| == 2 && KindOf(ids[1]).None? && Reviewed(s, ids)
    ensures Addressed(s, AdvanceCommand(ids))
  {
    hide InitialGoal, InitialPlan, Payload1;
    var r := AdvanceCommand(ids).request;
    assert RevisionOf(s, RecordSubject(REVIEW)).Some?;
    hide RevisionOf, ChainStands;
    assert r.others == map[];
    forall f | f in r.resolved ensures BindingKnown(s, r, f) {
      assert f == ReviewBinding || KindOf(r.resolved[f]).None?;
    }
  }

  lemma AdvanceCommits(s: Snapshot, ids: seq<Str>) returns (t: Reduced)
    requires |ids| == 2 && NoRepeats(ids) && KindOf(ids[1]).None?
    requires Reviewed(s, ids) && AtStart(s, ids) && Few(s, ids, RESULT)
    ensures Commit(Some(s), Input(AdvanceCommand(ids), Ctx(ids[0]))) == Ok(t)
    ensures Moved1(t.snapshot, ids) && Few(t.snapshot, ids, RESULT)
  {
    hide AfterAdvance, Commit, Few, Ctx, Addressed, InitialPlan, InitialGoal, ChainStands;
    AdvanceReduces(s, ids);
    AdvanceIsAddressed(s, ids);
    var d := AfterAdvance(s, AdvanceCommand(ids).request, Done).value;
    AdvanceMoves(s, ids, d);
    AdvanceFew(s, ids, d);
    CommitDispatched(s, AdvanceCommand(ids), d, ids, RESULT);
    FewRenumbered(d, 6, ids, RESULT);
    t := Renumbered(d, 6);
    StandsRenumbered(d, 6, ids);
  }

  lemma StandsRenumbered(d: Reduced, revision: nat, ids: seq<Str>)
    requires ids != [] && RESULT in d.snapshot.results && ChainStands(d.snapshot, ids)
    ensures ChainStands(Renumbered(d, revision).snapshot, ids)
  {
  }

  lemma StopFew(s: Snapshot, ids: seq<Str>, d: Reduced)
    requires |ids| == 2 && Few(s, ids, RESULT) && AfterStop(s, "enough") == Ok(d)
    ensures Few(d.snapshot, ids, RESULT)
  {
    StopDelta(s, "enough", d);
    hide AfterStop, GoalChain, Only, ActiveGoals;
  }

  lemma StopCommits(s: Snapshot, ids: seq<Str>) returns (t: Reduced)
    requires |ids| == 2 && NoRepeats(ids) && Moved1(s, ids) && Few(s, ids, RESULT)
    ensures Commit(Some(s), Input(STOP_COMMAND, Ctx(ids[0]))) == Ok(t)
    ensures Abandoned(t.snapshot, ids) && Few(t.snapshot, ids, RESULT)
  {
    hide AfterStop, Commit, Few, Ctx, ChainStands;
    StopReduces(s, ids);
    var d := AfterStop(s, "enough").value;
    StopFew(s, ids, d);
    assert Addressed(s, STOP_COMMAND);
    CommitDispatched(s, STOP_COMMAND, d, ids, RESULT);
    FewRenumbered(d, 7, ids, RESULT);
    t := Renumbered(d, 7);
    StandsRenumbered(d, 7, ids);
  }

  lemma PrepareFew(s: Snapshot, ids: seq<Str>, d: Reduced)
    requires |ids| == 2 && Few(s, ids, RESULT) && AfterPrepare(s, PREPARE_COMMAND.request, Succeeded) == Ok(d)
    ensures Few(d.snapshot, ids, RESULT)
  {
    PrepareDelta(s, PREPARE_COMMAND.request, Succeeded, d);
    hide AfterPrepare, GoalChain, CheckDisposition;
  }

  lemma PrepareCommits(s: Snapshot, ids: seq<Str>) returns (t: Reduced)
    requires |ids| == 2 && Abandoned(s, ids) && Few(s, ids, RESULT)
    ensures Commit(Some(s), Input(PREPARE_COMMAND, Ctx(ids[0]))) == Ok(t)
    ensures FINAL in t.snapshot.finalizations && t.snapshot.finalizations[FINAL].disposition == Succeeded
    ensures t.snapshot.goals == s.goals
  {
    hide AfterPrepare, Commit, Few, Ctx, ChainStands;
    PrepareReduces(s, ids);
    var d := AfterPrepare(s, PREPARE_COMMAND.request, Succeeded).value;
    PrepareFew(s, ids, d);
    assert Addressed(s, PREPARE_COMMAND);
    CommitDispatched(s, PREPARE_COMMAND, d, ids, RESULT);
    t := Renumbered(d, 8);
  }

  lemma FiveSteps(ids: seq<Str>) returns (run: seq<Input>, s: Snapshot)
    requires |ids| == 2 && NoRepeats(ids)
    ensures After(run) == Some(s) && Reviewed(s, ids) && AtStart(s, ids) && Few(s, ids, RESULT)
  {
    hide Commit, Few, Ctx, Begun, NoRepeats, AtStart, Seen;
    var seen;
    run, seen, s := ThreeSteps(ids, RESULT);
    var t := AcknowledgeCommits(s, ids);
    hide StagedOne, Evidenced;
    RunGrows(run, Input(ACKNOWLEDGE_COMMAND, Ctx(ids[0])), t);
    run := run + [Input(ACKNOWLEDGE_COMMAND, Ctx(ids[0]))];
    var u := ReviewCommits(t.snapshot, ids);
    hide Reviewed;
    RunGrows(run, Input(REVIEW_COMMAND, Ctx(ids[0])), u);
    run := run + [Input(REVIEW_COMMAND, Ctx(ids[0]))];
    s := u.snapshot;
  }

  lemma EightSteps(ids: seq<Str>) returns (run: seq<Input>, s: Snapshot)
    requires |ids| == 2 && NoRepeats(ids) && KindOf(ids[1]).None?
    ensures After(run) == Some(s)
    ensures FINAL in s.finalizations && s.finalizations[FINAL].disposition == Succeeded
    ensures ChainFor(ids[1]).goalRef in s.goals && s.goals[ChainFor(ids[1]).goalRef].state == Halted
  {
    hide Commit, Few, Ctx, NoRepeats, AtStart, Reviewed, AdvanceCommand;
    run, s := FiveSteps(ids);
    var t := AdvanceCommits(s, ids);
    RunGrows(run, Input(AdvanceCommand(ids), Ctx(ids[0])), t);
    run := run + [Input(AdvanceCommand(ids), Ctx(ids[0]))];
    var u := StopCommits(t.snapshot, ids);
    hide Moved1;
    RunGrows(run, Input(STOP_COMMAND, Ctx(ids[0])), u);
    run := run + [Input(STOP_COMMAND, Ctx(ids[0]))];
    var v := PrepareCommits(u.snapshot, ids);
    RunGrows(run, Input(PREPARE_COMMAND, Ctx(ids[0])), v);
    run := run + [Input(PREPARE_COMMAND, Ctx(ids[0]))];
    s := v.snapshot;
  }

  /** After the stop, the loop leaves TERMINAL and is finalised as SUCCEEDED although its plan never ran to the end. */
  lemma StoppedPlanSucceeds() returns (run: seq<Input>)
    ensures After(run).Some?
    ensures var s := After(run).value;
            FINAL in s.finalizations && s.finalizations[FINAL].disposition == Succeeded && SomeHalted(s.goals)
            && !WholePlanRan(s)
  {
    var s;
    hide Runs.After;
    run, s := EightSteps([Text("g000"), Text("g001")]);
    assert SomeHalted(s.goals);
    if WholePlanRan(s) { RanMeansNoneHalted(s); }
  }
}
