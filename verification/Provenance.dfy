/** Where what a loop has on record comes from: for every settled goal, observed effect, verified artifact, review and
    closure of a reachable snapshot, the accepted command that put it there and the evidence this command had. */
module Provenance {
  import opened Base
  import opened Records
  import opened Commands
  import opened Authority
  import opened Kernel
  import opened Permissions
  import opened Transitions
  import opened PlanProgress
  import opened EffectCoupling
  import opened ResultBinding
  import opened ClosureBacking
  import opened Invariant
  import opened Runs
  import opened Evidence
  import opened Steering
  import opened Closing
  import opened Acceptance

  /** The k-th command of the run was committed, on an existing loop. */
  predicate CommitsAt(run: seq<Input>, k: int) {
    0 <= k < |run| && After(run[..k]).Some? && Commit(After(run[..k]), run[k]).Ok?
  }

  /** Who issued it was permitted to, and everything it referred to was there. */
  lemma CommittedIsPermitted(run: seq<Input>, k: int)
    requires CommitsAt(run, k)
    ensures var s := After(run[..k]).value; var r := run[k].command.request;
            && |s.plan.ids| == |s.plan.slices| && Genuine(run[k].command)
            && Permitted(r, run[k].context, Some(s)) && Referenced(Some(s), r) && Accepts(s, r, run[k].context)
  {
    hide Commit, Permitted, Referenced, Accepts;
    CommitExactly(run[..k], After(run[..k]).value, run[k]);
  }

  /** A committed command is the dispatched one with the revision counted up. */
  lemma CommittedIsDispatched(s: Snapshot, i: Input)
    requires Commit(Some(s), i).Ok?
    ensures var d := Dispatch(s, i.command.request, i.context);
            d.Ok? && Commit(Some(s), i).value == Renumbered(d.value, i.command.request.expectedRevision + 1)
  {
    hide Dispatch, ValidateCommand, ValidateAuthority, ValidateReferences, Fits, AfterCreate;
  }

  // What each command leaves alone -----------------------------------------------------------------------------

  datatype Section = Goals | Effects | Artifacts | Reviews | Finalizations | Conclusion

  predicate Untouched(s: Snapshot, t: Snapshot, section: Section) {
    match section
    case Goals => t.goals == s.goals
    case Effects => t.effects == s.effects
    case Artifacts => t.artifacts == s.artifacts
    case Reviews => t.reviews == s.reviews
    case Finalizations => t.finalizations == s.finalizations
    case Conclusion => t.closure == s.closure && t.execution.disposition == s.execution.disposition
  }

  function Touched(p: Payload): set<Section> {
    match p
    case Create(_) => {Goals, Effects, Artifacts, Reviews, Finalizations, Conclusion}
    case Observe => {Effects}
    case Acknowledge => {Artifacts}
    case Judge(_) => {Reviews}
    case Decide(_, _) => {Goals, Effects}
    case Advance(_) => {Goals, Effects}
    case StopNow(_) => {Goals, Conclusion}
    case Prepare(_) => {Finalizations}
    case Close => {Finalizations, Conclusion}
    case Strengthen => {Finalizations, Conclusion}
    case _ => {}
  }

  predicate TouchedOnly(s: Snapshot, t: Snapshot, p: Payload) {
    forall section :: section !in Touched(p) ==> Untouched(s, t, section)
  }

  lemma EvidenceTouches(s: Snapshot, r: Request, ctx: Context, t: Reduced)
    requires match r.payload
             case Observe => AfterObserve(s, r, ctx) == Ok(t)
             case Stage(outcome, summary) => AfterStage(s, r, outcome, summary) == Ok(t)
             case Acknowledge => AfterAcknowledge(s, r, ctx) == Ok(t)
             case _ => false
    ensures TouchedOnly(s, t.snapshot, r.payload)
  {
    hide AfterObserve, AfterStage, AfterAcknowledge, Quiet, MayObserve, ActiveGoals, Only;
    match r.payload
    case Observe => ObserveDelta(s, r, ctx, t);
    case Stage(outcome, summary) => StageDelta(s, r, outcome, summary, t);
    case Acknowledge => AcknowledgeDelta(s, r, ctx, t);
    case _ =>
  }

  lemma ReviewTouches(s: Snapshot, r: Request, verdict: Verdict, t: Reduced)
    requires r.payload == Judge(verdict) && AfterReview(s, r, verdict) == Ok(t)
    ensures TouchedOnly(s, t.snapshot, r.payload)
  {
    hide AfterReview, Quiet, ResultChain;
    ReviewDelta(s, r, verdict, t);
  }

  lemma DecisionTouches(s: Snapshot, r: Request, ctx: Context, d: Decision, fingerprint: string, t: Reduced)
    requires r.payload == Decide(d, fingerprint) && AfterDecision(s, r, ctx, d, fingerprint) == Ok(t)
    ensures TouchedOnly(s, t.snapshot, r.payload)
  {
    hide AfterDecision, Launches, CountedFor, RepairChain, ActiveGoals, Only;
    DecisionDelta(s, r, ctx, d, fingerprint, t);
  }

  lemma AdvanceTouches(s: Snapshot, r: Request, to: GoalState, t: Reduced)
    requires r.payload == Advance(to) && AfterAdvance(s, r, to) == Ok(t)
    ensures TouchedOnly(s, t.snapshot, r.payload)
  {
    hide AfterAdvance, Launches, Quiet, GoalChain, NextInLine, Moved;
    AdvanceDelta(s, r, to, t);
  }

  lemma WaitingTouches(s: Snapshot, u: Snapshot, p: Payload)
    requires u.goals == s.goals && u.effects == s.effects && u.artifacts == s.artifacts && u.reviews == s.reviews
    requires u.finalizations == s.finalizations && u.closure == s.closure
    requires u.execution.disposition == s.execution.disposition
    ensures TouchedOnly(s, u, p)
  {
    hide Touched;
  }

  lemma PauseTouches(s: Snapshot, reason: string, wait: Option<WaitKind>, p: Payload, t: Reduced)
    requires p.Pause? && AfterPause(s, reason, wait) == Ok(t)
    ensures TouchedOnly(s, t.snapshot, p)
  {
    hide AfterPause, Reasoned, TouchedOnly;
    PauseExactly(s, reason, wait);
    WaitingTouches(s, t.snapshot, p);
  }

  lemma ResumeTouches(s: Snapshot, fields: ResumeFields, p: Payload, t: Reduced)
    requires p.Resume? && AfterResume(s, fields) == Ok(t)
    ensures TouchedOnly(s, t.snapshot, p)
  {
    hide AfterResume, EndsWait, TouchedOnly, ResumedAfter;
    ResumeExactly(s, fields);
    ResumedTouches(s, fields, t);
    WaitingTouches(s, t.snapshot, p);
  }

  lemma ResumedTouches(s: Snapshot, fields: ResumeFields, t: Reduced)
    requires ResumedAfter(s, fields, t)
    ensures var u := t.snapshot;
            && u.goals == s.goals && u.effects == s.effects && u.artifacts == s.artifacts && u.reviews == s.reviews
            && u.finalizations == s.finalizations && u.closure == s.closure
            && u.execution.disposition == s.execution.disposition
  {
  }

  lemma ReviseTouches(
    s: Snapshot, ids: seq<Str>, slices: seq<Str>, index: Str, revision: int, reason: string, p: Payload, t: Reduced)
    requires SnapshotPlanInv(s) && p.Revise? && AfterRevise(s, ids, slices, index, revision, reason) == Ok(t)
    ensures TouchedOnly(s, t.snapshot, p)
  {
    hide AfterRevise, SnapshotPlanInv, MayReorder;
    ReviseExactly(s, ids, slices, index, revision, reason);
  }

  lemma StopTouches(s: Snapshot, reason: string, p: Payload, t: Reduced)
    requires p.StopNow? && AfterStop(s, reason) == Ok(t)
    ensures TouchedOnly(s, t.snapshot, p)
  {
    hide AfterStop, Quiet, ActiveGoals, Only, Moved;
    StopDelta(s, reason, t);
  }

  lemma PrepareTouches(s: Snapshot, r: Request, d: Disposition, t: Reduced)
    requires r.payload.Prepare? && AfterPrepare(s, r, d) == Ok(t)
    ensures TouchedOnly(s, t.snapshot, r.payload)
  {
    hide AfterPrepare, MayPrepare;
    PrepareExactly(s, r, d);
    var c :| MayPrepare(s, r, d, c);
    assert c.review.Some? && NewFinalization in r.allocate by { MayPrepareNames(s, r, d, c); }
  }

  lemma MayPrepareNames(s: Snapshot, r: Request, d: Disposition, c: SubjectChain)
    requires MayPrepare(s, r, d, c)
    ensures c.review.Some? && NewFinalization in r.allocate
  {
    hide ReviewedChain, Concludes;
  }

  lemma CloseTouches(s: Snapshot, r: Request, ctx: Context, t: Reduced)
    requires r.payload.Close? && AfterClose(s, r, ctx) == Ok(t)
    ensures TouchedOnly(s, t.snapshot, r.payload)
  {
    hide AfterClose, MayClose, ReceiptStands, StrictlyAcknowledged;
    CloseExactly(s, r, ctx);
  }

  lemma StrengthenTouches(s: Snapshot, r: Request, ctx: Context, t: Reduced)
    requires r.payload.Strengthen? && AfterStrengthen(s, r, ctx) == Ok(t)
    ensures TouchedOnly(s, t.snapshot, r.payload)
  {
    hide AfterStrengthen, Quiet;
    StrengthenDelta(s, r, ctx, t);
  }

  /** Each command touches only the sections named for it. */
  lemma TouchesOnly(s: Snapshot, r: Request, ctx: Context, t: Reduced)
    requires Dispatch(s, r, ctx) == Ok(t) && SnapshotPlanInv(s)
    ensures TouchedOnly(s, t.snapshot, r.payload) && !r.payload.Create?
  {
    hide AfterCreate, AfterObserve, AfterStage, AfterAcknowledge, AfterReview, AfterDecision, AfterAdvance, AfterPause,
         AfterResume, AfterRevise, AfterStop, AfterPrepare, AfterClose, AfterStrengthen, SnapshotPlanInv, TouchedOnly;
    match r.payload
    case Create(c) => CreateRefused(s, r, ctx, c);
    case Observe => EvidenceTouches(s, r, ctx, t);
    case Stage(_, _) => EvidenceTouches(s, r, ctx, t);
    case Acknowledge => EvidenceTouches(s, r, ctx, t);
    case Judge(verdict) => ReviewTouches(s, r, verdict, t);
    case Decide(d, fingerprint) => DecisionTouches(s, r, ctx, d, fingerprint, t);
    case Advance(to) => AdvanceTouches(s, r, to, t);
    case Pause(reason, wait) => PauseTouches(s, reason, wait, r.payload, t);
    case Resume(fields) => ResumeTouches(s, fields, r.payload, t);
    case Revise(ids, slices, index, revision, reason) => ReviseTouches(s, ids, slices, index, revision, reason, r.payload, t);
    case StopNow(reason) => StopTouches(s, reason, r.payload, t);
    case Prepare(d) => PrepareTouches(s, r, d, t);
    case Close => CloseTouches(s, r, ctx, t);
    case Strengthen => StrengthenTouches(s, r, ctx, t);
  }

  // Goals ------------------------------------------------------------------------------------------------------

  /** Only AdvanceGoal settles a goal otherwise than by stopping it, and it settles its subject. */
  lemma OnlyAdvancesSettle(s: Snapshot, r: Request, ctx: Context, t: Reduced, g: Str)
    requires Dispatch(s, r, ctx) == Ok(t) && SnapshotPlanInv(s)
    requires g in t.snapshot.goals && t.snapshot.goals[g].state in {Done, Failed, Limited, Skipped}
    requires g in s.goals ==> s.goals[g].state != t.snapshot.goals[g].state
    ensures r.payload == Advance(t.snapshot.goals[g].state) && r.subject == g
  {
    hide AfterCreate, AfterObserve, AfterStage, AfterAcknowledge, AfterReview, AfterDecision, AfterAdvance, AfterPause,
         AfterResume, AfterRevise, AfterStop, AfterPrepare, AfterClose, AfterStrengthen, SnapshotPlanInv, Touched;
    TouchesOnly(s, r, ctx, t);
    assert Untouched(s, t.snapshot, Goals) ==> t.snapshot.goals == s.goals;
    hide Untouched;
    match r.payload
    case Decide(d, fingerprint) => DecisionsDoNotSettle(s, r, ctx, d, fingerprint, t, g);
    case Advance(to) => AdvanceSettlesSubject(s, r, to, t, g);
    case StopNow(reason) => StopHalts(s, reason, t, g);
    case _ => GoalsAreTouchedBy(r.payload);
  }

  lemma GoalsAreTouchedBy(p: Payload)
    ensures Goals in Touched(p) ==> p.Decide? || p.Advance? || p.StopNow? || p.Create?
  {
  }

  lemma StopHalts(s: Snapshot, reason: string, t: Reduced, g: Str)
    requires AfterStop(s, reason) == Ok(t) && g in t.snapshot.goals
    ensures g in s.goals && t.snapshot.goals[g].state in {s.goals[g].state, Halted}
  {
    hide AfterStop, Quiet, ActiveGoals, Only;
    StopDelta(s, reason, t);
  }

  lemma DecisionsDoNotSettle(s: Snapshot, r: Request, ctx: Context, d: Decision, fingerprint: string, t: Reduced, g: Str)
    requires AfterDecision(s, r, ctx, d, fingerprint) == Ok(t) && g in t.snapshot.goals
    ensures g in s.goals && s.goals[g].state == t.snapshot.goals[g].state
  {
    hide AfterDecision, Launches, CountedFor, Count;
    DecisionDelta(s, r, ctx, d, fingerprint, t);
  }

  lemma AdvanceSettlesSubject(s: Snapshot, r: Request, to: GoalState, t: Reduced, g: Str)
    requires AfterAdvance(s, r, to) == Ok(t)
    requires g in t.snapshot.goals && t.snapshot.goals[g].state in {Done, Failed, Limited, Skipped}
    requires g in s.goals ==> s.goals[g].state != t.snapshot.goals[g].state
    ensures t.snapshot.goals[g].state == to && r.subject == g
  {
    hide AfterAdvance, Launches, Quiet, GoalChain;
    AdvanceDelta(s, r, to, t);
  }

  /** The k-th command of the run settled the goal, on evident grounds. */
  predicate SettledAt(run: seq<Input>, k: int, g: Str, to: GoalState) {
    && CommitsAt(run, k)
    && var r := run[k].command.request;
       && r.payload == Advance(to) && r.subject == g && ReviewBinding in r.resolved
       && Evident(After(run[..k]).value, g, r.resolved[ReviewBinding], to)
  }

  lemma SettlingStep(run: seq<Input>, g: Str)
    requires run != []
    requires var s := After(run[..|run| - 1]);
             && s.Some? && SnapshotPlanInv(s.value) && Commit(s, run[|run| - 1]).Ok?
             && var t := Commit(s, run[|run| - 1]).value.snapshot;
                && g in t.goals && t.goals[g].state in {Done, Failed, Limited, Skipped}
                && (g in s.value.goals ==> s.value.goals[g].state != t.goals[g].state)
    ensures SettledAt(run, |run| - 1, g, Commit(After(run[..|run| - 1]), run[|run| - 1]).value.snapshot.goals[g].state)
  {
    hide Commit, Dispatch, SnapshotPlanInv, Judges, Warrants, MayMoveOn, SettledAfter, AfterAdvance;
    var s, i := After(run[..|run| - 1]).value, run[|run| - 1];
    CommittedIsDispatched(s, i);
    var d := Dispatch(s, i.command.request, i.context).value;
    OnlyAdvancesSettle(s, i.command.request, i.context, d, g);
    AdvanceDispatched(s, i.command.request, i.context);
    AdvanceExactly(s, i.command.request, d.snapshot.goals[g].state);
  }

  lemma AdvanceDispatched(s: Snapshot, r: Request, ctx: Context)
    ensures r.payload.Advance? ==> Dispatch(s, r, ctx) == AfterAdvance(s, r, r.payload.to)
  {
    hide AfterAdvance;
  }

  /** Every goal of a reachable snapshot that is DONE, FAILED, limited or SKIPPED was settled by a command of the run that
      had the evidence this takes. */
  lemma {:induction false} SettledHadEvidence(run: seq<Input>, g: Str)
    requires After(run).Some? && g in After(run).value.goals
    requires After(run).value.goals[g].state in {Done, Failed, Limited, Skipped}
    ensures exists k :: SettledAt(run, k, g, After(run).value.goals[g].state)
  {
    hide Commit, Inv, Fits, Evident, SnapshotPlanInv;
    var front, i := run[..|run| - 1], run[|run| - 1];
    LastCommand(run);
    ReachableInv(front);
    var to := After(run).value.goals[g].state;
    if After(front).None? {
      CreatedIsActive(i);
    } else if Commit(After(front), i).Ok? && !(g in After(front).value.goals && After(front).value.goals[g].state == to) {
      PlanOfInv(After(front).value);
      SettlingStep(run, g);
    } else {
      SettledHadEvidence(front, g);
      var k :| SettledAt(front, k, g, to);
      EarlierStep(run, k);
      assert SettledAt(run, k, g, to);
    }
  }

  lemma EarlierStep(run: seq<Input>, k: int)
    requires run != [] && 0 <= k < |run| - 1
    ensures run[..|run| - 1][..k] == run[..k] && run[..|run| - 1][k] == run[k]
  {
  }

  lemma CreatedIsActive(i: Input)
    requires Commit(None, i).Ok?
    ensures forall g :: g in Commit(None, i).value.snapshot.goals ==> Commit(None, i).value.snapshot.goals[g].state == Active
  {
    hide StartupReceipt, StartupBaseline, ValidateCommand, ValidateAuthority, ValidateReferences, Fits, ValidPlanIdentity,
         ValidObjective, AllocatesChain, GoalChain, Is64, NewEffectRecord, NewAttemptRecord;
  }

  // Effects ----------------------------------------------------------------------------------------------------

  lemma NewEffectsAreCommitted(s: Snapshot, r: Request, ctx: Context, t: Reduced, e: Str)
    requires Dispatch(s, r, ctx) == Ok(t) && (r.payload.Decide? || r.payload.Advance?)
    requires e in t.snapshot.effects && !(e in s.effects && s.effects[e] == t.snapshot.effects[e])
    ensures t.snapshot.effects[e].state == Committed
  {
    hide AfterDecision, AfterAdvance, CountedFor, Count, Quiet, GoalChain, RepairChain, NextInLine, Moved, Only, ActiveGoals,
         SameEvidence;
    match r.payload
    case Decide(d, fingerprint) => DecisionDelta(s, r, ctx, d, fingerprint, t);
    case Advance(to) => AdvanceDelta(s, r, to, t);
    case _ =>
  }

  /** Only RecordExternalEffectObservation sights an effect, and it sights its subject. */
  lemma OnlyObservationsSight(s: Snapshot, r: Request, ctx: Context, t: Reduced, e: Str)
    requires Dispatch(s, r, ctx) == Ok(t) && SnapshotPlanInv(s)
    requires e in t.snapshot.effects && t.snapshot.effects[e].state != Committed
    requires !(e in s.effects && s.effects[e] == t.snapshot.effects[e])
    ensures r.payload.Observe? && r.subject == e
  {
    hide AfterCreate, AfterObserve, AfterStage, AfterAcknowledge, AfterReview, AfterDecision, AfterAdvance, AfterPause,
         AfterResume, AfterRevise, AfterStop, AfterPrepare, AfterClose, AfterStrengthen, SnapshotPlanInv, Touched;
    TouchesOnly(s, r, ctx, t);
    assert Untouched(s, t.snapshot, Effects) ==> t.snapshot.effects == s.effects;
    hide Untouched;
    match r.payload
    case Observe => ObservationSightsSubject(s, r, ctx, t, e);
    case Decide(_, _) => NewEffectsAreCommitted(s, r, ctx, t, e);
    case Advance(_) => NewEffectsAreCommitted(s, r, ctx, t, e);
    case _ => EffectsAreTouchedBy(r.payload);
  }

  lemma EffectsAreTouchedBy(p: Payload)
    ensures Effects in Touched(p) ==> p.Observe? || p.Decide? || p.Advance? || p.Create?
  {
  }

  lemma ObservationSightsSubject(s: Snapshot, r: Request, ctx: Context, t: Reduced, e: Str)
    requires AfterObserve(s, r, ctx) == Ok(t)
    requires e in t.snapshot.effects && !(e in s.effects && s.effects[e] == t.snapshot.effects[e])
    ensures r.subject == e
  {
    hide AfterObserve, Quiet, MayObserve;
    ObserveDelta(s, r, ctx, t);
  }

  /** The k-th command of the run sighted the effect in the state, by the receipt. */
  predicate SightedAt(run: seq<Input>, k: int, e: Str, next: Observation, receipt: Str) {
    && CommitsAt(run, k)
    && var r := run[k].command.request;
       && r.payload == Observe && r.subject == e
       && MayObserveAs(After(run[..k]).value, r, run[k].context, next)
       && run[k].context.receipts[r.receipt.value].ref == receipt
  }

  lemma SightingStep(run: seq<Input>, e: Str)
    requires run != []
    requires var s := After(run[..|run| - 1]);
             && s.Some? && SnapshotPlanInv(s.value) && Commit(s, run[|run| - 1]).Ok?
             && var t := Commit(s, run[|run| - 1]).value.snapshot;
                && e in t.effects && t.effects[e].state != Committed
                && !(e in s.value.effects && s.value.effects[e] == t.effects[e])
    ensures var effect := Commit(After(run[..|run| - 1]), run[|run| - 1]).value.snapshot.effects[e];
            effect.receipt.Some? && SightedAt(run, |run| - 1, e, effect.state, effect.receipt.value)
  {
    hide Commit, Dispatch, SnapshotPlanInv, AboutAttempt, Shows, SightingEvents, AfterObserve;
    var s, i := After(run[..|run| - 1]).value, run[|run| - 1];
    CommittedIsDispatched(s, i);
    OnlyObservationsSight(s, i.command.request, i.context, Dispatch(s, i.command.request, i.context).value, e);
    ObserveDispatched(s, i.command.request, i.context);
    ObserveExactly(s, i.command.request, i.context);
  }

  lemma ObserveDispatched(s: Snapshot, r: Request, ctx: Context)
    ensures r.payload.Observe? ==> Dispatch(s, r, ctx) == AfterObserve(s, r, ctx)
    ensures r.payload.Acknowledge? ==> Dispatch(s, r, ctx) == AfterAcknowledge(s, r, ctx)
    ensures r.payload.Judge? ==> Dispatch(s, r, ctx) == AfterReview(s, r, r.payload.verdict)
    ensures r.payload.Prepare? ==> Dispatch(s, r, ctx) == AfterPrepare(s, r, r.payload.disposition)
    ensures r.payload.Close? ==> Dispatch(s, r, ctx) == AfterClose(s, r, ctx)
    ensures r.payload.Strengthen? ==> Dispatch(s, r, ctx) == AfterStrengthen(s, r, ctx)
  {
    hide AfterObserve, AfterAcknowledge, AfterReview, AfterPrepare, AfterClose, AfterStrengthen;
  }

  lemma CreatedIsBare(i: Input)
    requires Commit(None, i).Ok?
    ensures var s := Commit(None, i).value.snapshot;
            && (forall e :: e in s.effects ==> s.effects[e].state == Committed)
            && s.artifacts == map[] && s.reviews == map[] && s.finalizations == map[]
            && s.closure.strength == NoStrength && s.execution.disposition == None
  {
    hide StartupReceipt, StartupBaseline, ValidateCommand, ValidateAuthority, ValidateReferences, Fits, ValidPlanIdentity,
         ValidObjective, AllocatesChain, GoalChain, Is64, InitialGoal, InitialPlan, NewAttemptRecord;
  }

  /** Every effect of a reachable snapshot that has been sighted was sighted by a command of the run whose receipt was about
      this attempt and showed this state: OBSERVED, by a strict receipt of the observation. */
  lemma {:induction false} SightedHadEvidence(run: seq<Input>, e: Str)
    requires After(run).Some? && e in After(run).value.effects && After(run).value.effects[e].state != Committed
    ensures var effect := After(run).value.effects[e];
            effect.receipt.Some? && exists k :: SightedAt(run, k, e, effect.state, effect.receipt.value)
  {
    hide Commit, Inv, Fits, MayObserveAs, SnapshotPlanInv;
    var front, i := run[..|run| - 1], run[|run| - 1];
    LastCommand(run);
    ReachableInv(front);
    var effect := After(run).value.effects[e];
    if After(front).None? {
      CreatedIsBare(i);
    } else if Commit(After(front), i).Ok? && !(e in After(front).value.effects && After(front).value.effects[e] == effect) {
      PlanOfInv(After(front).value);
      SightingStep(run, e);
    } else {
      SightedHadEvidence(front, e);
      var k :| SightedAt(front, k, e, effect.state, effect.receipt.value);
      EarlierStep(run, k);
      assert SightedAt(run, k, e, effect.state, effect.receipt.value);
    }
  }

  // Artifacts --------------------------------------------------------------------------------------------------

  /** The k-th command of the run registered the artifact, on a receipt: verified exactly if the receipt is strict. */
  predicate AttestedAt(run: seq<Input>, k: int, ref: Str, artifact: Artifact) {
    && CommitsAt(run, k)
    && var r := run[k].command.request; var ctx := run[k].context;
       && r.payload == Acknowledge && r.subject == artifact.resultRef && MayAcknowledge(After(run[..k]).value, r, ctx)
       && r.allocate[NewArtifact] == ref && r.resolved[ArtifactDigest] == artifact.content
       && ctx.receipts[r.receipt.value].ref == artifact.receipt
       && (artifact.verified <==> ctx.receipts[r.receipt.value].trust == StrictTrust)
  }

  lemma ArtifactsAreTouchedBy(p: Payload)
    ensures Artifacts in Touched(p) ==> p.Acknowledge? || p.Create?
    ensures Reviews in Touched(p) ==> p.Judge? || p.Create?
    ensures Finalizations in Touched(p) ==> p.Prepare? || p.Close? || p.Strengthen? || p.Create?
    ensures Conclusion in Touched(p) ==> p.StopNow? || p.Close? || p.Strengthen? || p.Create?
  {
  }

  lemma AttestingStep(run: seq<Input>, a: Str)
    requires run != []
    requires var s := After(run[..|run| - 1]);
             && s.Some? && SnapshotPlanInv(s.value) && Commit(s, run[|run| - 1]).Ok?
             && var t := Commit(s, run[|run| - 1]).value.snapshot;
                a in t.artifacts && !(a in s.value.artifacts && s.value.artifacts[a] == t.artifacts[a])
    ensures AttestedAt(run, |run| - 1, a, Commit(After(run[..|run| - 1]), run[|run| - 1]).value.snapshot.artifacts[a])
  {
    hide Commit, Dispatch, SnapshotPlanInv, AfterAcknowledge, ReceiptStands, Attests, Touched;
    var s, i := After(run[..|run| - 1]).value, run[|run| - 1];
    CommittedIsDispatched(s, i);
    var t := Dispatch(s, i.command.request, i.context).value;
    TouchesOnly(s, i.command.request, i.context, t);
    assert Untouched(s, t.snapshot, Artifacts) ==> t.snapshot.artifacts == s.artifacts;
    ArtifactsAreTouchedBy(i.command.request.payload);
    ObserveDispatched(s, i.command.request, i.context);
    AcknowledgeExactly(s, i.command.request, i.context);
  }

  /** Every artifact of a reachable snapshot was registered by an acknowledgement in the run; a verified one on a strict
      receipt that it was captured with just this content. */
  lemma {:induction false} ArtifactsHadEvidence(run: seq<Input>, a: Str)
    requires After(run).Some? && a in After(run).value.artifacts
    ensures exists k :: AttestedAt(run, k, a, After(run).value.artifacts[a])
  {
    hide Commit, Inv, Fits, MayAcknowledge, SnapshotPlanInv;
    var front, i := run[..|run| - 1], run[|run| - 1];
    LastCommand(run);
    ReachableInv(front);
    var artifact := After(run).value.artifacts[a];
    if After(front).None? {
      CreatedIsBare(i);
    } else if Commit(After(front), i).Ok?
              && !(a in After(front).value.artifacts && After(front).value.artifacts[a] == artifact) {
      PlanOfInv(After(front).value);
      AttestingStep(run, a);
    } else {
      ArtifactsHadEvidence(front, a);
      var k :| AttestedAt(front, k, a, artifact);
      EarlierStep(run, k);
      assert AttestedAt(run, k, a, artifact);
    }
  }

  // Reviews ----------------------------------------------------------------------------------------------------

  /** The k-th command of the run recorded the review: its issuer's verdict on an acknowledged result, about the chain as
      it then was. */
  ghost predicate JudgedAt(run: seq<Input>, k: int, ref: Str, review: Review) {
    && CommitsAt(run, k)
    && var r := run[k].command.request;
       && r.payload == Judge(review.verdict) && r.subject == review.resultRef && r.actor == review.reviewer
       && NewReview in r.allocate && r.allocate[NewReview] == ref
       && exists c :: MayReview(After(run[..k]).value, r, c) && review.chainDigest == Digest(SubjectChainOf(c))
  }

  lemma JudgingStep(run: seq<Input>, v: Str)
    requires run != []
    requires var s := After(run[..|run| - 1]);
             && s.Some? && SnapshotPlanInv(s.value) && Commit(s, run[|run| - 1]).Ok?
             && var t := Commit(s, run[|run| - 1]).value.snapshot;
                v in t.reviews && !(v in s.value.reviews && s.value.reviews[v] == t.reviews[v])
    ensures JudgedAt(run, |run| - 1, v, Commit(After(run[..|run| - 1]), run[|run| - 1]).value.snapshot.reviews[v])
  {
    hide Commit, Dispatch, SnapshotPlanInv, AfterReview, CurrentChain, Touched;
    var s, i := After(run[..|run| - 1]).value, run[|run| - 1];
    CommittedIsDispatched(s, i);
    var t := Dispatch(s, i.command.request, i.context).value;
    TouchesOnly(s, i.command.request, i.context, t);
    assert Untouched(s, t.snapshot, Reviews) ==> t.snapshot.reviews == s.reviews;
    ArtifactsAreTouchedBy(i.command.request.payload);
    ObserveDispatched(s, i.command.request, i.context);
    ReviewExactly(s, i.command.request, i.command.request.payload.verdict);
    var c :| MayReview(s, i.command.request, c);
  }

  /** Every review of a reachable snapshot was recorded by the run, with its verdict, by its reviewer. */
  lemma {:induction false} ReviewsHadEvidence(run: seq<Input>, v: Str)
    requires After(run).Some? && v in After(run).value.reviews
    ensures exists k :: JudgedAt(run, k, v, After(run).value.reviews[v])
  {
    hide Commit, Inv, Fits, MayReview, SnapshotPlanInv;
    var front, i := run[..|run| - 1], run[|run| - 1];
    LastCommand(run);
    ReachableInv(front);
    var review := After(run).value.reviews[v];
    if After(front).None? {
      CreatedIsBare(i);
    } else if Commit(After(front), i).Ok?
              && !(v in After(front).value.reviews && After(front).value.reviews[v] == review) {
      PlanOfInv(After(front).value);
      JudgingStep(run, v);
    } else {
      ReviewsHadEvidence(front, v);
      var k :| JudgedAt(front, k, v, review);
      EarlierStep(run, k);
      assert JudgedAt(run, k, v, review);
    }
  }

  // Finalizations and closure ----------------------------------------------------------------------------------

  /** The k-th command of the run prepared the finalization, of a chain that supported its disposition. */
  ghost predicate PreparedAt(run: seq<Input>, k: int, ref: Str, d: Disposition, chainDigest: Str) {
    && CommitsAt(run, k)
    && var r := run[k].command.request;
       && r.payload == Prepare(d) && NewFinalization in r.allocate && r.allocate[NewFinalization] == ref
       && exists c :: MayPrepare(After(run[..k]).value, r, d, c) && chainDigest == Digest(SubjectChainOf(c))
  }

  predicate SameFinalization(s: Snapshot, t: Snapshot, ref: Str)
    requires ref in t.finalizations
  {
    && ref in s.finalizations && s.finalizations[ref].disposition == t.finalizations[ref].disposition
    && s.finalizations[ref].chainDigest == t.finalizations[ref].chainDigest
  }

  lemma ClosingKeepsFinalizations(s: Snapshot, r: Request, ctx: Context, t: Reduced, ref: Str)
    requires AfterClose(s, r, ctx) == Ok(t) && ref in t.snapshot.finalizations
    ensures SameFinalization(s, t.snapshot, ref)
  {
    hide AfterClose, Quiet;
    CloseDelta(s, r, ctx, t);
  }

  lemma StrengtheningKeepsFinalizations(s: Snapshot, r: Request, ctx: Context, t: Reduced, ref: Str)
    requires AfterStrengthen(s, r, ctx) == Ok(t) && ref in t.snapshot.finalizations
    ensures SameFinalization(s, t.snapshot, ref)
  {
    hide AfterStrengthen, Quiet;
    StrengthenDelta(s, r, ctx, t);
  }

  lemma PreparingStep(run: seq<Input>, ref: Str)
    requires run != []
    requires var s := After(run[..|run| - 1]);
             && s.Some? && SnapshotPlanInv(s.value) && Commit(s, run[|run| - 1]).Ok?
             && var t := Commit(s, run[|run| - 1]).value.snapshot;
                ref in t.finalizations && !SameFinalization(s.value, t, ref)
    ensures var f := Commit(After(run[..|run| - 1]), run[|run| - 1]).value.snapshot.finalizations[ref];
            PreparedAt(run, |run| - 1, ref, f.disposition, f.chainDigest)
  {
    hide Commit, Dispatch, SnapshotPlanInv, AfterPrepare, AfterClose, AfterStrengthen, ReviewedChain, Concludes, Touched,
         SameFinalization;
    var s, i := After(run[..|run| - 1]).value, run[|run| - 1];
    CommittedIsDispatched(s, i);
    var r := i.command.request;
    var t := Dispatch(s, r, i.context).value;
    TouchesOnly(s, r, i.context, t);
    ArtifactsAreTouchedBy(r.payload);
    ObserveDispatched(s, r, i.context);
    NotTheSame(s, t.snapshot, ref, i.command.request.expectedRevision + 1);
    if r.payload.Close? {
      ClosingKeepsFinalizations(s, r, i.context, t, ref);
    } else if r.payload.Strengthen? {
      StrengtheningKeepsFinalizations(s, r, i.context, t, ref);
    } else {
      assert r.payload.Prepare?;
      PrepareExactly(s, r, r.payload.disposition);
      var c :| MayPrepare(s, r, r.payload.disposition, c);
      PreparedIsNamed(s, r, r.payload.disposition, c, t, ref);
    }
  }

  lemma NotTheSame(s: Snapshot, t: Snapshot, ref: Str, revision: nat)
    requires ref in t.finalizations && !SameFinalization(s, t.(loopRevision := revision), ref)
    ensures !SameFinalization(s, t, ref) && !Untouched(s, t, Finalizations)
  {
  }

  lemma PreparedIsNamed(s: Snapshot, r: Request, d: Disposition, c: SubjectChain, t: Reduced, ref: Str)
    requires MayPrepare(s, r, d, c) && NewFinalization in r.allocate && c.review.Some? && PreparedAfter(s, r, d, c, t)
    requires ref in t.snapshot.finalizations && !SameFinalization(s, t.snapshot, ref)
    ensures r.allocate[NewFinalization] == ref
    ensures t.snapshot.finalizations[ref].disposition == d
    ensures t.snapshot.finalizations[ref].chainDigest == Digest(SubjectChainOf(c))
  {
    hide MayPrepare;
  }

  /** Every finalization of a reachable snapshot was prepared by the run, when no goal was active and the reviewed chain
      supported its disposition. */
  lemma {:induction false} FinalizationsHadEvidence(run: seq<Input>, ref: Str)
    requires After(run).Some? && ref in After(run).value.finalizations
    ensures var f := After(run).value.finalizations[ref];
            exists k :: PreparedAt(run, k, ref, f.disposition, f.chainDigest)
  {
    hide Commit, Inv, Fits, MayPrepare, SnapshotPlanInv, SameFinalization;
    var front, i := run[..|run| - 1], run[|run| - 1];
    LastCommand(run);
    ReachableInv(front);
    var f := After(run).value.finalizations[ref];
    if After(front).None? {
      CreatedIsBare(i);
    } else {
      PlanOfInv(After(front).value);
      if Commit(After(front), i).Ok? && !SameFinalization(After(front).value, After(run).value, ref) {
        PreparingStep(run, ref);
      } else {
        SameIsThere(After(front).value, After(run).value, ref);
        FinalizationsHadEvidence(front, ref);
        var k :| PreparedAt(front, k, ref, f.disposition, f.chainDigest);
        EarlierStep(run, k);
        assert PreparedAt(run, k, ref, f.disposition, f.chainDigest);
      }
    }
  }

  lemma SameIsThere(s: Snapshot, t: Snapshot, ref: Str)
    requires ref in t.finalizations && (s == t || SameFinalization(s, t, ref))
    ensures ref in s.finalizations && s.finalizations[ref].disposition == t.finalizations[ref].disposition
    ensures s.finalizations[ref].chainDigest == t.finalizations[ref].chainDigest
  {
  }

  /** The k-th command of the run closed the loop by a finalization of the disposition. */
  ghost predicate ClosedAt(run: seq<Input>, k: int, ref: Str, d: Disposition) {
    && CommitsAt(run, k)
    && var r := run[k].command.request; var s := After(run[..k]).value;
       && r.payload == Close && r.subject == ref && ref in s.finalizations && s.finalizations[ref].disposition == d
       && exists c :: MayClose(s, r, run[k].context, c)
  }

  /** The k-th command of the run closed the loop strictly by the finalization, or strengthened its closure. */
  predicate StrictlyClosedAt(run: seq<Input>, k: int, ref: Str) {
    && CommitsAt(run, k)
    && var r := run[k].command.request; var s := After(run[..k]).value;
       && (r.payload == Close || r.payload == Strengthen) && r.subject == ref && ref in s.finalizations
       && ReadsBack(r, run[k].context, s.finalizations[ref].chainDigest)
       && StrictlyAcknowledged(run[k].context.receipts[r.receipt.value])
  }

  lemma StopIsLocal(s: Snapshot, reason: string, t: Reduced)
    requires AfterStop(s, reason) == Ok(t)
    ensures t.snapshot.closure.strength == Local && t.snapshot.execution.disposition == Some(Stopped)
  {
    hide AfterStop, Quiet, Only, ActiveGoals;
    StopDelta(s, reason, t);
  }

  lemma CloseMayClose(s: Snapshot, r: Request, ctx: Context, t: Reduced)
    requires AfterClose(s, r, ctx) == Ok(t)
    ensures r.subject in s.finalizations && (exists c :: MayClose(s, r, ctx, c))
    ensures t.snapshot.execution.disposition == Some(s.finalizations[r.subject].disposition)
    ensures t.snapshot.closure.finalizationRef == Some(r.subject)
    ensures ReadsBack(r, ctx, s.finalizations[r.subject].chainDigest)
    ensures t.snapshot.closure.strength == Strict ==> StrictlyAcknowledged(ctx.receipts[r.receipt.value])
  {
    hide AfterClose, ReviewedChain, ReceiptStands, Attests;
    CloseExactly(s, r, ctx);
    var c :| MayClose(s, r, ctx, c);
  }

  lemma ClosingStep(run: seq<Input>)
    requires run != []
    requires var s := After(run[..|run| - 1]);
             && s.Some? && SnapshotPlanInv(s.value) && Commit(s, run[|run| - 1]).Ok?
             && var t := Commit(s, run[|run| - 1]).value.snapshot;
                && t.execution.disposition.Some? && t.execution.disposition != Some(Stopped)
                && s.value.execution.disposition != t.execution.disposition
    ensures var d := Commit(After(run[..|run| - 1]), run[|run| - 1]).value.snapshot.execution.disposition.value;
            ClosedAt(run, |run| - 1, run[|run| - 1].command.request.subject, d)
  {
    hide Commit, Dispatch, SnapshotPlanInv, AfterStop, AfterClose, AfterStrengthen, MayClose, Touched;
    var s, i := After(run[..|run| - 1]).value, run[|run| - 1];
    CommittedIsDispatched(s, i);
    var r := i.command.request;
    var t := Dispatch(s, r, i.context).value;
    TouchesOnly(s, r, i.context, t);
    assert Untouched(s, t.snapshot, Conclusion) ==> t.snapshot.execution.disposition == s.execution.disposition;
    ArtifactsAreTouchedBy(r.payload);
    ObserveDispatched(s, r, i.context);
    StopDispatched(s, r, i.context);
    match r.payload
    case Close => CloseMayClose(s, r, i.context, t);
    case StopNow(reason) => StopIsLocal(s, reason, t);
    case Strengthen => StrengthenExactly(s, r, i.context);
    case _ =>
  }

  lemma StopDispatched(s: Snapshot, r: Request, ctx: Context)
    ensures r.payload.StopNow? ==> Dispatch(s, r, ctx) == AfterStop(s, r.payload.reason)
  {
    hide AfterStop;
  }

  lemma StrictStep(run: seq<Input>)
    requires run != []
    requires var s := After(run[..|run| - 1]);
             && s.Some? && SnapshotPlanInv(s.value) && Commit(s, run[|run| - 1]).Ok?
             && var t := Commit(s, run[|run| - 1]).value.snapshot;
                t.closure.strength == Strict && s.value.closure != t.closure
    ensures var t := Commit(After(run[..|run| - 1]), run[|run| - 1]).value.snapshot;
            t.closure.finalizationRef.Some? && StrictlyClosedAt(run, |run| - 1, t.closure.finalizationRef.value)
  {
    hide Commit, Dispatch, SnapshotPlanInv, AfterStop, AfterClose, AfterStrengthen, MayClose, Touched, StrictlyAcknowledged;
    var s, i := After(run[..|run| - 1]).value, run[|run| - 1];
    CommittedIsDispatched(s, i);
    var r := i.command.request;
    var t := Dispatch(s, r, i.context).value;
    TouchesOnly(s, r, i.context, t);
    assert Untouched(s, t.snapshot, Conclusion) ==> t.snapshot.closure == s.closure;
    ArtifactsAreTouchedBy(r.payload);
    ObserveDispatched(s, r, i.context);
    StopDispatched(s, r, i.context);
    match r.payload
    case Close => CloseMayClose(s, r, i.context, t);
    case StopNow(reason) => StopIsLocal(s, reason, t);
    case Strengthen => StrengthenExactly(s, r, i.context);
    case _ =>
  }

  /** Strict closure of a reachable snapshot goes back to a command of the run with a strict readback of its finalization. */
  lemma {:induction false} StrictHadEvidence(run: seq<Input>)
    requires After(run).Some? && After(run).value.closure.strength == Strict
    ensures var ref := After(run).value.closure.finalizationRef;
            ref.Some? && exists k :: StrictlyClosedAt(run, k, ref.value)
  {
    hide Commit, Inv, Fits, ReadsBack, StrictlyAcknowledged, SnapshotPlanInv;
    var front, i := run[..|run| - 1], run[|run| - 1];
    LastCommand(run);
    ReachableInv(front);
    if After(front).None? {
      CreatedIsBare(i);
    } else if Commit(After(front), i).Ok? && After(front).value.closure != After(run).value.closure {
      PlanOfInv(After(front).value);
      StrictStep(run);
    } else {
      StrictHadEvidence(front);
      var ref := After(run).value.closure.finalizationRef.value;
      var k :| StrictlyClosedAt(front, k, ref);
      EarlierStep(run, k);
      assert StrictlyClosedAt(run, k, ref);
    }
  }

  lemma {:induction false} ConcludedByClosing(run: seq<Input>) returns (k: int, ref: Str)
    requires After(run).Some? && After(run).value.execution.disposition.Some?
    requires After(run).value.execution.disposition != Some(Stopped)
    ensures ClosedAt(run, k, ref, After(run).value.execution.disposition.value)
  {
    hide Commit, Inv, Fits, MayClose, SnapshotPlanInv;
    var front, i := run[..|run| - 1], run[|run| - 1];
    LastCommand(run);
    ReachableInv(front);
    if After(front).None? {
      CreatedIsBare(i);
    } else if Commit(After(front), i).Ok?
              && After(front).value.execution.disposition != After(run).value.execution.disposition {
      PlanOfInv(After(front).value);
      ClosingStep(run);
      k, ref := |run| - 1, i.command.request.subject;
    } else {
      k, ref := ConcludedByClosing(front);
      EarlierStep(run, k);
    }
  }

  /** A loop that ended otherwise than by being stopped was closed by the run, by a finalization that an earlier command
      had prepared when its chain supported the disposition; if it succeeded, the closing readback was strict. */
  lemma ConclusionHadEvidence(run: seq<Input>)
    requires After(run).Some? && After(run).value.execution.disposition.Some?
    requires After(run).value.execution.disposition != Some(Stopped)
    ensures var d := After(run).value.execution.disposition.value;
            exists j, k, ref, digest :: j < k && PreparedAt(run, j, ref, d, digest) && ClosedAt(run, k, ref, d)
  {
    hide Commit, Fits, MayClose, MayPrepare;
    var d := After(run).value.execution.disposition.value;
    var k, ref := ConcludedByClosing(run);
    var f := After(run[..k]).value.finalizations[ref];
    FinalizationsHadEvidence(run[..k], ref);
    var j :| PreparedAt(run[..k], j, ref, d, f.chainDigest);
    assert run[..k][..j] == run[..j] && run[..k][j] == run[j];
    assert PreparedAt(run, j, ref, d, f.chainDigest);
  }

  // Together ---------------------------------------------------------------------------------------------------

  /** A goal that is DONE was passed by a review: some command of the run settled it on a passing review of a passed result,
      and an earlier one, permitted to, had recorded just this review. */
  lemma DoneWasReviewed(run: seq<Input>, g: Str)
    requires After(run).Some? && g in After(run).value.goals && After(run).value.goals[g].state == Done
    ensures exists j, k, v, review: Review ::
              && j < k && SettledAt(run, k, g, Done) && run[k].command.request.resolved[ReviewBinding] == v
              && JudgedAt(run, j, v, review) && review.verdict == PassVerdict
  {
    hide Commit, Fits, MayReview, Referenced, Permitted;
    SettledHadEvidence(run, g);
    var k :| SettledAt(run, k, g, Done);
    var v := run[k].command.request.resolved[ReviewBinding];
    var review := After(run[..k]).value.reviews[v];
    ReviewsHadEvidence(run[..k], v);
    var j :| JudgedAt(run[..k], j, v, review);
    assert run[..k][..j] == run[..j] && run[..k][j] == run[j];
    assert JudgedAt(run, j, v, review);
  }
}
