/** Runs of one loop: what holds after any sequence of commands, accepted or not. */
module Runs {
  import opened Base
  import opened Records
  import opened Commands
  import opened Authority
  import opened Kernel
  import opened Transitions
  import opened PlanProgress
  import opened EffectCoupling
  import opened ResultBinding
  import opened ClosureBacking
  import opened Invariant

  // One accepted command ---------------------------------------------------------------------------------------

  lemma AdvanceKeeps(s: Snapshot, r: Request, to: GoalState, t: Reduced)
    requires Inv(s) && AfterAdvance(s, r, to) == Ok(t)
    ensures Keeps(s, t)
  {
    AdvanceGuards(s, r, to, t);
    AdvanceDelta(s, r, to, t);
    AdvanceKeepsPlan(s, r, to, t);
    AdvanceTarget(s, r, to, t);
    hide AfterAdvance, Inv, JustifiesAdvance, MaterializesGoal, Keeps, GoalsAdvance, SnapshotPlanInv, Quiet;
    if LeavesPlan(s, to) {
      AdvanceLeavesStep(s, t, r.resolved[ReviewBinding], to);
    } else {
      AdvanceMovesStep(s, t, to);
    }
  }

  lemma AdvanceTarget(s: Snapshot, r: Request, to: GoalState, t: Reduced)
    requires AfterAdvance(s, r, to) == Ok(t)
    ensures to in {Done, Skipped, Failed, Limited}
  {
    hide NextGoal;
  }

  lemma DecisionKeeps(s: Snapshot, r: Request, ctx: Context, d: Decision, fingerprint: string, t: Reduced)
    requires Inv(s) && AfterDecision(s, r, ctx, d, fingerprint) == Ok(t)
    ensures Keeps(s, t)
  {
    DecisionDelta(s, r, ctx, d, fingerprint, t);
    DecisionKeepsPlan(s, r, ctx, d, fingerprint, t);
    ActiveIsCurrent(s.loopRef, s.plan, s.goals);
    assert s.plan.activeGoalRef in s.goals;
    hide AfterDecision, CountsRepair, Keeps, GoalsAdvance, Inv, SnapshotPlanInv, Defers;
    if d == ContinueRepair {
      assert s.plan.activeGoalRef in ActiveGoals(s.goals);
      DecisionStep(s, t);
    } else {
      DeferKeeps(s, t, d);
    }
  }

  lemma DeferKeeps(s: Snapshot, t: Reduced, d: Decision)
    requires Inv(s) && Defers(s, t, d)
    ensures Keeps(s, t)
  {
    hide Keeps, SnapshotPlanInv, PlanInv, CoupledInv, BoundInv, EndingInv, Count;
    CountNone(t.events, Scheduling);
    CountNone(t.events, Authorizing);
    CountNone(t.events, Extending);
    DecideStep(s, t);
  }

  lemma StopKeeps(s: Snapshot, reason: string, t: Reduced)
    requires Inv(s) && AfterStop(s, reason) == Ok(t)
    ensures Keeps(s, t)
  {
    StopDelta(s, reason, t);
    StopKeepsPlan(s, reason, t);
    ActiveIsCurrent(s.loopRef, s.plan, s.goals);
    hide AfterStop, Keeps, GoalsAdvance, PlanInv, CoupledInv, BoundInv, EndingInv, StopsLoop, Quiet;
    StopStep(s, t);
  }

  lemma ReviseKeeps(s: Snapshot, ids: seq<Str>, slices: seq<Str>, index: Str, revision: int, reason: string, t: Reduced)
    requires Inv(s) && AfterRevise(s, ids, slices, index, revision, reason) == Ok(t)
    ensures Keeps(s, t)
  {
    ReviseDelta(s, ids, slices, index, revision, reason, t);
    ReviseKeepsPlan(s, ids, slices, index, revision, reason, t);
    ReviseKeepsPairing(s.plan, ids, slices, index, revision, reason);
    hide AfterRevise, ValidRevision, Pairing, Keeps, GoalsAdvance, PlanInv, CoupledInv, BoundInv, EndingInv, Quiet;
    ReviseStep(s, t);
  }

  lemma ReviseKeepsPairing(p: Plan, ids: seq<Str>, slices: seq<Str>, index: Str, revision: int, reason: string)
    requires ValidRevision(p, ids, slices, index, revision, reason)
    ensures Pairing(ids, slices) == Pairing(p.ids, p.slices)
  {
    hide Pairing;
  }

  lemma ResumeKeeps(s: Snapshot, fields: ResumeFields, t: Reduced)
    requires Inv(s) && AfterResume(s, fields) == Ok(t)
    ensures Keeps(s, t)
  {
    ResumeDelta(s, fields, t);
    hide AfterResume, Keeps, Inv, Quiet, ExtendsBudget;
    if ExtendsBudget(s, t) { ExtendStep(s, t); } else { ExecutionStep(s, t); }
  }

  /** Every accepted command keeps the invariant and moves the snapshot forwards. */
  lemma DispatchKeeps(s: Snapshot, r: Request, ctx: Context, t: Reduced)
    requires Inv(s) && Dispatch(s, r, ctx) == Ok(t)
    ensures Keeps(s, t)
  {
    hide AfterCreate, AfterObserve, AfterStage, AfterAcknowledge, AfterReview, AfterDecision, AfterAdvance, AfterPause,
         AfterResume, AfterRevise, AfterStop, AfterPrepare, AfterClose, AfterStrengthen, Inv, Keeps;
    hide ObservesPair, StagesResult, AcknowledgesResult, RecordsReview, PreparesFinalization, ClosesExecution,
         StrengthensClosure, Quiet;
    match r.payload
    case Create(c) => CreateRefused(s, r, ctx, c);
    case Observe => ObserveDelta(s, r, ctx, t); ObserveStep(s, t, r.subject);
    case Stage(outcome, summary) =>
      StageDelta(s, r, outcome, summary, t); StageStep(s, t, r.subject, r.allocate[NewResult]);
    case Acknowledge => AcknowledgeDelta(s, r, ctx, t); AcknowledgeStep(s, t, r.subject);
    case Judge(verdict) =>
      ReviewDelta(s, r, verdict, t); ReviewStep(s, t, r.subject, verdict, r.allocate[NewReview]);
    case Decide(d, fingerprint) => DecisionKeeps(s, r, ctx, d, fingerprint, t);
    case Advance(to) => AdvanceKeeps(s, r, to, t);
    case Pause(reason, wait) => PauseDelta(s, reason, wait, t); ExecutionStep(s, t);
    case Resume(fields) => ResumeKeeps(s, fields, t);
    case Revise(ids, slices, index, revision, reason) => ReviseKeeps(s, ids, slices, index, revision, reason, t);
    case StopNow(reason) => StopKeeps(s, reason, t);
    case Prepare(d) => PrepareDelta(s, r, d, t); PrepareStep(s, t, d, r.allocate[NewFinalization]);
    case Close => CloseDelta(s, r, ctx, t); CloseStep(s, t, r.subject);
    case Strengthen => StrengthenDelta(s, r, ctx, t); StrengthenStep(s, t, r.subject);
  }

  lemma CreateRefused(s: Snapshot, r: Request, ctx: Context, c: Startup)
    ensures AfterCreate(Some(s), r, ctx, c).Err?
  {
  }

  // One committed command --------------------------------------------------------------------------------------

  /** A reduction whose snapshot can be canonically encoded; anything else commits nothing. */
  function Commit(s: Option<Snapshot>, i: Input): Result<Reduced> {
    var t :- Reduce(s, i.command, i.context);
    :- Need(Fits(t.snapshot), ResourceLimitExceeded);
    Ok(t)
  }

  function Renumbered(t: Reduced, revision: nat): Reduced { t.(snapshot := t.snapshot.(loopRevision := revision)) }

  lemma RenumberKeeps(s: Snapshot, t: Reduced, revision: nat)
    requires Keeps(s, t)
    ensures Keeps(s, Renumbered(t, revision))
  {
    hide PlanInv, CoupledInv, BoundInv, EndingInv, ObservedForwards, Count;
  }

  lemma CommitKeeps(s: Snapshot, i: Input, t: Reduced)
    requires Inv(s) && Commit(Some(s), i) == Ok(t)
    ensures Keeps(s, t) && Fits(t.snapshot) && t.snapshot.loopRevision == i.command.request.expectedRevision + 1
  {
    hide Inv, Keeps, Dispatch, ValidateCommand, ValidateAuthority, ValidateReferences, Fits, AfterCreate;
    var r := i.command.request;
    var d := Dispatch(s, r, i.context);
    assert d.Ok? && t == Renumbered(d.value, r.expectedRevision + 1);
    DispatchKeeps(s, r, i.context, d.value);
    RenumberKeeps(s, d.value, r.expectedRevision + 1);
  }

  lemma CommitCreates(i: Input, t: Reduced)
    requires Commit(None, i) == Ok(t)
    ensures i.command.request.payload.Create? && AfterCreate(None, i.command.request, i.context, i.command.request.payload.startup).Ok?
    ensures Inv(t.snapshot) && Fits(t.snapshot) && t.snapshot.loopRevision == 1
    ensures |t.snapshot.attempts| == 1 && t.snapshot.plan.activeIndex == 0 && ExtensionsOf(t.snapshot.plan) == 0
    ensures t.snapshot.policy == None && Quiet(t.events) && t.snapshot.loopRef == i.command.request.loop
  {
    hide Inv, Dispatch, ValidateCommand, ValidateAuthority, ValidateReferences, Fits, AfterCreate;
    var r := i.command.request;
    var c := r.payload.startup;
    var d := AfterCreate(None, r, i.context, c);
    assert d.Ok? && t == Renumbered(d.value, r.expectedRevision + 1);
    CreateFresh(r, i.context, c, d.value);
    RenumberInv(d.value.snapshot, r.expectedRevision + 1);
  }

  lemma CreateFresh(r: Request, ctx: Context, c: Startup, t: Reduced)
    requires AfterCreate(None, r, ctx, c) == Ok(t)
    ensures Inv(t.snapshot) && |t.snapshot.attempts| == 1 && t.snapshot.plan.activeIndex == 0
    ensures ExtensionsOf(t.snapshot.plan) == 0 && t.snapshot.policy == None && Quiet(t.events)
    ensures r.expectedRevision == 0 && t.snapshot.loopRef == r.loop
  {
    CreateDelta(r, ctx, c, t);
    CreateEstablishesPlan(r, ctx, c, t);
    CreateQuiet(r, ctx, c, t);
    hide AfterCreate, PlanInv, CoupledInv, BoundInv, EndingInv, Quiet;
    CreateStep(r, c, t.snapshot);
  }

  lemma CreateQuiet(r: Request, ctx: Context, c: Startup, t: Reduced)
    requires AfterCreate(None, r, ctx, c) == Ok(t)
    ensures Quiet(t.events) && r.expectedRevision == 0
  {
    hide StartupReceipt, StartupBaseline, ValidPlanIdentity, ValidObjective;
  }

  lemma RenumberInv(s: Snapshot, revision: nat)
    requires Inv(s)
    ensures Inv(s.(loopRevision := revision))
  {
    hide PlanInv, CoupledInv, BoundInv, EndingInv;
  }

  // Runs -------------------------------------------------------------------------------------------------------

  function Stepped(s: Option<Snapshot>, i: Input): Option<Snapshot> {
    match Commit(s, i) case Ok(t) => Some(t.snapshot) case Err(_) => s
  }

  function Emitted(s: Option<Snapshot>, i: Input): seq<Event> {
    match Commit(s, i) case Ok(t) => t.events case Err(_) => []
  }

  /** The snapshot after a run; a rejected command, or one that faults, leaves it alone. */
  function After(run: seq<Input>): Option<Snapshot> {
    if run == [] then None else Stepped(After(run[..|run| - 1]), run[|run| - 1])
  }

  /** All events of a run, in order. */
  function Log(run: seq<Input>): seq<Event> {
    if run == [] then [] else Log(run[..|run| - 1]) + Emitted(After(run[..|run| - 1]), run[|run| - 1])
  }

  /** How often a repair was authorised while the given goal was the active one. */
  function RepairsOf(run: seq<Input>, goal: Str): nat {
    if run == [] then 0
    else
      var s := After(run[..|run| - 1]);
      RepairsOf(run[..|run| - 1], goal)
      + if s.Some? && s.value.plan.activeGoalRef == goal then Count(Emitted(s, run[|run| - 1]), Authorizing) else 0
  }

  lemma {:induction false} CountAppend(a: seq<Event>, b: seq<Event>, tag: Tag)
    ensures Count(a + b, tag) == Count(a, tag) + Count(b, tag)
  {
    if b == [] {
      assert a + b == a;
    } else {
      var front := b[..|b| - 1];
      CountAppend(a, front, tag);
      assert (a + b)[..|a + b| - 1] == a + front;
    }
  }

  /** A run either ends where its front ended, silently, or commits its last command. */
  lemma LastCommand(run: seq<Input>)
    requires run != []
    ensures var s := After(run[..|run| - 1]);
            match Commit(s, run[|run| - 1])
            case Ok(t) => After(run) == Some(t.snapshot) && Log(run) == Log(run[..|run| - 1]) + t.events
            case Err(_) => After(run) == s && Log(run) == Log(run[..|run| - 1])
  {
    hide Commit;
  }

  /** Every reachable snapshot satisfies the invariant and can be encoded. */
  lemma {:induction false} ReachableInv(run: seq<Input>)
    ensures After(run).Some? ==> Inv(After(run).value) && Fits(After(run).value)
    ensures After(run).None? ==> Log(run) == []
  {
    hide Inv, Commit, Fits, Keeps;
    if run != [] {
      var front, last := run[..|run| - 1], run[|run| - 1];
      ReachableInv(front);
      LastCommand(run);
      var s := After(front);
      match Commit(s, last)
      case Err(_) =>
      case Ok(t) =>
        if s.None? { CommitCreates(last, t); } else { CommitKeeps(s.value, last, t); KeepsInv(s.value, t); }
    }
  }

  lemma KeepsInv(s: Snapshot, t: Reduced)
    requires Keeps(s, t)
    ensures Inv(t.snapshot) && Forwards(s, t)
  {
    hide Inv, Forwards;
  }

  /** The number of attempts is the number of effects, and is one per materialised goal plus one per scheduled
      repair; the encoding limit caps it at 128. */
  lemma {:induction false} AttemptConservation(run: seq<Input>)
    requires After(run).Some?
    ensures var s := After(run).value;
            && |s.attempts| == |s.effects| == s.plan.activeIndex + 1 + Count(Log(run), Scheduling)
            && |s.attempts| <= MAX_COLLECTION_ITEMS
  {
    hide Commit, Keeps, Count, PlanInv, BoundInv, EndingInv, GoalsAdvance, ObservedForwards, BudgetForwards, RepairsCounted;
    ReachableInv(run);
    var front, last := run[..|run| - 1], run[|run| - 1];
    LastCommand(run);
    ReachableInv(front);
    match Commit(After(front), last)
    case Err(_) => AttemptConservation(front);
    case Ok(t) =>
      CountAppend(Log(front), t.events, Scheduling);
      if After(front).None? {
        CommitCreates(last, t);
        QuietCounts(t.events);
        assert Log(front) == [];
        EmptyCount(Scheduling);
      } else {
        AttemptConservation(front);
        CommitKeeps(After(front).value, last, t);
        KeepsInv(After(front).value, t);
      }
  }

  lemma EmptyCount(tag: Tag)
    ensures Count([], tag) == 0
  {
  }
}
