/** The invariant every accepted command keeps, and the direction in which every accepted command moves. */
module Invariant {
  import opened Base
  import opened Records
  import opened Commands
  import opened Authority
  import opened Kernel
  import opened Transitions
  import opened PlanProgress
  import opened EffectCoupling
  import opened ResultBinding
  import opened ClosureBacking

  predicate PolicyInv(s: Snapshot) {
    s.policy.Some? ==>
      && s.policy.value.repairAttempts <= 3
      && (s.policy.value.repairAttempts > 0 ==> s.policy.value.goalRef.Some?)
      && (s.policy.value.goalRef.Some? ==> s.policy.value.goalRef.value in s.goals)
  }

  predicate Inv(s: Snapshot) {
    && SnapshotPlanInv(s)
    && CoupledInv(WiringOf(s))
    && BoundInv(LedgerOf(s))
    && EndingInv(EndingOf(s))
    && PolicyInv(s)
  }

  // Direction -------------------------------------------------------------------------------------------------

  /** Host-invocation and wall-clock budgets never decrease; each extension strictly raises one, within the limits,
      and is counted by the extension revision. */
  predicate BudgetForwards(s: Snapshot, t: Reduced) {
    var b, c := s.plan.budget, t.snapshot.plan.budget;
    if Count(t.events, Extending) == 0 then c == b && t.snapshot.plan.extension == s.plan.extension
    else
      && Count(t.events, Extending) == 1
      && b.invocations <= c.invocations <= MAX_INVOCATIONS && b.seconds <= c.seconds <= MAX_SECONDS
      && (MAX_INVOCATIONS - c.invocations) + (MAX_SECONDS - c.seconds)
         < (MAX_INVOCATIONS - b.invocations) + (MAX_SECONDS - b.seconds)
      && c.cost == b.cost && ExtensionsOf(t.snapshot.plan) == ExtensionsOf(s.plan) + 1
  }

  /** Attempts are added one at a time: by the next goal, or by a scheduled repair. */
  predicate AttemptsConserved(s: Snapshot, t: Reduced) {
    |t.snapshot.attempts| == |s.attempts| + (t.snapshot.plan.activeIndex - s.plan.activeIndex) + Count(t.events, Scheduling)
  }

  /** The repairs counted for the active goal grow exactly with its authorisations, to three at most. */
  predicate RepairsCounted(s: Snapshot, t: Reduced) {
    var goal := s.plan.activeGoalRef;
    var authorised := Count(t.events, Authorizing);
    && CountedFor(t.snapshot.policy, goal) == CountedFor(s.policy, goal) + authorised
    && authorised <= 1
    && (authorised == 1 ==> goal in s.goals && s.goals[goal].state == Active && CountedFor(s.policy, goal) < 3)
    && (t.snapshot.policy.Some? && t.snapshot.policy.value.goalRef.Some? ==>
          t.snapshot.policy.value.goalRef.value in s.goals)
  }

  /** Only the position, the runtime budget and the order of a plan ever change; each id keeps its slice. */
  predicate PlanKept(p: Plan, q: Plan) {
    && q == p.(activeGoalRef := q.activeGoalRef, activeIndex := q.activeIndex, budget := q.budget, ids := q.ids,
               slices := q.slices, indexDigest := q.indexDigest, revision := q.revision, extension := q.extension)
    && Pairing(q.ids, q.slices) == Pairing(p.ids, p.slices)
  }

  predicate Forwards(s: Snapshot, t: Reduced) {
    && GoalsAdvance(s, t.snapshot)
    && PlanKept(s.plan, t.snapshot.plan)
    && ObservedForwards(WiringOf(s), WiringOf(t.snapshot))
    && BudgetForwards(s, t)
    && AttemptsConserved(s, t)
    && RepairsCounted(s, t)
  }

  predicate Keeps(s: Snapshot, t: Reduced) { Inv(t.snapshot) && Forwards(s, t) }

  /** What is left to show for a command that touches neither goals, plan, effects nor policy. */
  lemma FrameKeeps(s: Snapshot, t: Reduced)
    requires Inv(s) && BoundInv(LedgerOf(t.snapshot)) && EndingInv(EndingOf(t.snapshot))
    requires t.snapshot.loopRef == s.loopRef && t.snapshot.goals == s.goals && t.snapshot.plan == s.plan
    requires WiringOf(t.snapshot) == WiringOf(s) && t.snapshot.policy == s.policy && Quiet(t.events)
    ensures Keeps(s, t)
  {
    hide BoundInv, EndingInv, CoupledInv, PlanInv;
    QuietCounts(t.events);
  }

  // One command at a time --------------------------------------------------------------------------------------

  lemma CreateStep(r: Request, c: Startup, u: Snapshot)
    requires CreatesLoop(r, c, u) && SnapshotPlanInv(u)
    ensures Inv(u) && |u.attempts| == 1 && u.plan.activeIndex == 0 && ExtensionsOf(u.plan) == 0
  {
    hide CoupledInv, PlanInv;
    CreateEstablishesCoupled(r, c, u);
  }

  lemma ObserveWiring(s: Snapshot, u: Snapshot, e: Str)
    requires CoupledInv(WiringOf(s)) && ObservesPair(s, u, e)
    ensures CoupledInv(WiringOf(u)) && ObservedForwards(WiringOf(s), WiringOf(u)) && |u.attempts| == |s.attempts|
  {
    assert EffectHolds(WiringOf(s), e);
    hide EffectHolds;
    ObservesPairInWiring(s, u, e);
    hide ObservesPair, Observes;
    ObserveKeepsCoupled(WiringOf(s), WiringOf(u), e);
    ObserveKeepsSizes(WiringOf(s), WiringOf(u), e);
  }

  lemma ObserveLedger(s: Snapshot, u: Snapshot)
    requires BoundInv(LedgerOf(s)) && ObservedForwards(WiringOf(s), WiringOf(u))
    requires u == s.(hosts := u.hosts, effects := u.effects, attempts := u.attempts)
    requires s.plan.activeGoalRef in s.goals
    ensures BoundInv(LedgerOf(u))
  {
    hide BoundInv, EffectMoves;
    GrowKeepsBound(LedgerOf(s), LedgerOf(u));
  }

  lemma ObserveStep(s: Snapshot, t: Reduced, e: Str)
    requires Inv(s) && ObservesPair(s, t.snapshot, e) && Quiet(t.events)
    ensures Keeps(s, t)
  {
    hide EndingInv, CoupledInv, BoundInv, ObservedForwards, EffectHolds;
    var u := t.snapshot;
    ObserveWiring(s, u, e);
    assert u == s.(hosts := u.hosts, effects := u.effects, attempts := u.attempts);
    hide ObservesPair;
    ObserveLedger(s, u);
    hide PlanInv;
    QuietCounts(t.events);
  }

  lemma StageStep(s: Snapshot, t: Reduced, e: Str, ref: Str)
    requires Inv(s) && StagesResult(s, t.snapshot, e, ref) && Quiet(t.events)
    ensures Keeps(s, t)
  {
    hide EndingInv, CoupledInv, Keeps, Quiet, BoundInv;
    ActiveIsCurrent(s.loopRef, s.plan, s.goals);
    hide PlanInv;
    StageKeepsBound(LedgerOf(s), LedgerOf(t.snapshot), ref);
    FrameKeeps(s, t);
  }

  lemma AcknowledgeStep(s: Snapshot, t: Reduced, ref: Str)
    requires Inv(s) && AcknowledgesResult(s, t.snapshot, ref) && Quiet(t.events)
    ensures Keeps(s, t)
  {
    hide EndingInv, CoupledInv, Keeps, Quiet, BoundInv, PlanInv;
    AcknowledgeKeepsBound(LedgerOf(s), LedgerOf(t.snapshot), ref);
    FrameKeeps(s, t);
  }

  lemma ReviewStep(s: Snapshot, t: Reduced, resultRef: Str, verdict: Verdict, ref: Str)
    requires Inv(s) && RecordsReview(s, t.snapshot, resultRef, verdict, ref) && Quiet(t.events)
    ensures Keeps(s, t)
  {
    hide EndingInv, CoupledInv, Keeps, Quiet, BoundInv, PlanInv, ResultChain;
    FrameKeeps(s, t);
  }

  lemma ExecutionStep(s: Snapshot, t: Reduced)
    requires Inv(s) && t.snapshot == s.(execution := t.snapshot.execution) && Quiet(t.events)
    requires s.execution.state in {Running, Paused} && t.snapshot.execution.state in {Running, Paused}
    ensures Keeps(s, t)
  {
    hide EndingInv, CoupledInv, Keeps, Quiet, BoundInv, PlanInv;
    ExecutionMayToggle(EndingOf(s), EndingOf(t.snapshot));
    FrameKeeps(s, t);
  }

  lemma BudgetKeepsPlan(loop: Str, p: Plan, q: Plan, goals: map<Str, Goal>)
    requires PlanInv(loop, p, goals) && q == p.(budget := q.budget, extension := q.extension)
    ensures PlanInv(loop, q, goals)
  {
    forall i | 0 <= i <= q.activeIndex ensures GoalAt(loop, q, goals, i) {
      assert GoalAt(loop, p, goals, i);
      assert i > 0 ==> GoalRefAt(loop, q, i - 1) == GoalRefAt(loop, p, i - 1);
    }
  }

  lemma ExtendStep(s: Snapshot, t: Reduced)
    requires Inv(s) && ExtendsBudget(s, t)
    ensures Keeps(s, t)
  {
    var u := t.snapshot;
    hide EndingInv, CoupledInv, BoundInv, PlanInv, Count;
    BudgetKeepsPlan(s.loopRef, s.plan, u.plan, s.goals);
    ExecutionMayToggle(EndingOf(s), EndingOf(u));
  }

  lemma ReviseStep(s: Snapshot, t: Reduced)
    requires Inv(s) && SnapshotPlanInv(t.snapshot) && GoalsAdvance(s, t.snapshot)
    requires t.snapshot == s.(plan := t.snapshot.plan) && Quiet(t.events) && PlanKept(s.plan, t.snapshot.plan)
    requires t.snapshot.plan == s.plan.(ids := t.snapshot.plan.ids, slices := t.snapshot.plan.slices,
                                        indexDigest := t.snapshot.plan.indexDigest, revision := t.snapshot.plan.revision)
    ensures Keeps(s, t)
  {
    hide EndingInv, CoupledInv, BoundInv, PlanInv, GoalsAdvance;
    QuietCounts(t.events);
  }

  lemma AddLedger(s: Snapshot, u: Snapshot)
    requires BoundInv(LedgerOf(s)) && ObservedForwards(WiringOf(s), WiringOf(u)) && SameEvidence(s, u)
    requires u.plan.activeGoalRef == s.plan.activeGoalRef && s.plan.activeGoalRef in s.goals
    requires s.goals.Keys <= u.goals.Keys && u.goals[s.plan.activeGoalRef].state == s.goals[s.plan.activeGoalRef].state
    ensures BoundInv(LedgerOf(u))
  {
    hide BoundInv, EffectMoves;
    GrowKeepsBound(LedgerOf(s), LedgerOf(u));
  }

  lemma MoveLedger(s: Snapshot, u: Snapshot)
    requires BoundInv(LedgerOf(s)) && ObservedForwards(WiringOf(s), WiringOf(u)) && SameEvidence(s, u)
    requires s.goals.Keys <= u.goals.Keys && u.plan.activeGoalRef in u.goals && u.plan.activeGoalRef !in s.goals
    requires u.goals[u.plan.activeGoalRef].state == Active
    ensures BoundInv(LedgerOf(u))
  {
    hide BoundInv, EffectMoves;
    MoveKeepsBound(LedgerOf(s), LedgerOf(u));
  }

  // AdvanceGoal ------------------------------------------------------------------------------------------------

  lemma MaterializeWiring(s: Snapshot, u: Snapshot, from: Str, to: GoalState)
    requires CoupledInv(WiringOf(s)) && MaterializesGoal(s, u, from, to)
    ensures CoupledInv(WiringOf(u)) && ObservedForwards(WiringOf(s), WiringOf(u))
    ensures |u.attempts| == |s.attempts| + 1
  {
    hide CoupledInv, FreshPair, NextInLine;
    var i := s.plan.activeIndex + 1;
    var chain := GoalChain(s.loopRef, s.plan.planDigest, s.plan.ids[i], s.plan.slices[i]);
    assert Adds(WiringOf(s), WiringOf(u), chain.effectRef);
    hide Adds, Launches;
    AddKeepsCoupled(WiringOf(s), WiringOf(u), chain.effectRef);
  }

  lemma AdvanceLeavesStep(s: Snapshot, t: Reduced, reviewRef: Str, to: GoalState)
    requires Inv(s) && JustifiesAdvance(s, s.plan.activeGoalRef, reviewRef, to)
    requires t.snapshot == s.(goals := s.goals[s.plan.activeGoalRef := Moved(s, s.plan.activeGoalRef, to)])
    requires SnapshotPlanInv(t.snapshot) && GoalsAdvance(s, t.snapshot) && Quiet(t.events)
    requires to !in {Active, Halted}
    ensures Keeps(s, t)
  {
    var u := t.snapshot;
    hide PlanInv, GoalsAdvance, CoupledInv, BoundInv, ObservedForwards;
    assert SomeResultOf(LedgerOf(s), s.plan.activeGoalRef);
    LiveGoals(s, u, to);
    hide JustifiesAdvance, EndingInv;
    GoalsMayChange(WiringOf(s), WiringOf(u));
    SettleKeepsBound(LedgerOf(s), LedgerOf(u));
    QuietCounts(t.events);
  }

  /** While a goal is active nothing has been finalised or stopped, so the ending is untouched. */
  lemma LiveGoals(s: Snapshot, u: Snapshot, to: GoalState)
    requires EndingInv(EndingOf(s)) && s.plan.activeGoalRef in s.goals
    requires s.goals[s.plan.activeGoalRef].state == Active && to != Halted
    requires u.goals == s.goals[s.plan.activeGoalRef := Moved(s, s.plan.activeGoalRef, to)]
    requires u.finalizations == s.finalizations && u.execution == s.execution && u.closure == s.closure
    requires u.plan.activeGoalRef == s.plan.activeGoalRef
    ensures EndingInv(EndingOf(u))
  {
    assert !NoneActive(s.goals);
    assert !SomeHalted(s.goals);
    assert !SomeHalted(u.goals);
    LiveGoalsMayChange(EndingOf(s), EndingOf(u));
  }

  lemma LiveMove(s: Snapshot, u: Snapshot, to: GoalState)
    requires EndingInv(EndingOf(s)) && s.plan.activeGoalRef in s.goals
    requires s.goals[s.plan.activeGoalRef].state == Active && to != Halted
    requires MaterializesGoal(s, u, s.plan.activeGoalRef, to)
    ensures EndingInv(EndingOf(u))
  {
    hide Launches;
    assert !NoneActive(s.goals);
    assert !SomeHalted(s.goals);
    assert !SomeHalted(u.goals);
    LiveGoalsMayChange(EndingOf(s), EndingOf(u));
  }

  lemma AdvanceMovesStep(s: Snapshot, t: Reduced, to: GoalState)
    requires Inv(s) && s.plan.activeGoalRef in s.goals && s.goals[s.plan.activeGoalRef].state == Active
    requires to in {Done, Skipped}
    requires MaterializesGoal(s, t.snapshot, s.plan.activeGoalRef, to)
    requires SnapshotPlanInv(t.snapshot) && GoalsAdvance(s, t.snapshot) && Quiet(t.events)
    ensures Keeps(s, t)
  {
    var u := t.snapshot;
    hide PlanInv, GoalsAdvance, CoupledInv, BoundInv, ObservedForwards, EndingInv, NextInLine, Launches;
    MaterializeWiring(s, u, s.plan.activeGoalRef, to);
    LiveMove(s, u, to);
    NextIsActive(s, u, to);
    MoveLedger(s, u);
    QuietCounts(t.events);
  }

  lemma NextIsActive(s: Snapshot, u: Snapshot, to: GoalState)
    requires MaterializesGoal(s, u, s.plan.activeGoalRef, to)
    ensures u.plan.activeGoalRef in u.goals && u.goals[u.plan.activeGoalRef].state == Active
    ensures u.plan.activeGoalRef !in s.goals && s.goals.Keys <= u.goals.Keys
  {
    hide Launches, SameEvidence;
  }

  // RecordPolicyDecision, StopLoop -----------------------------------------------------------------------------

  lemma RepairWiring(s: Snapshot, u: Snapshot, goalRef: Str, ordinal: nat)
    requires CoupledInv(WiringOf(s)) && SchedulesRepair(s, u, goalRef, ordinal) && 1 <= ordinal <= 3
    ensures CoupledInv(WiringOf(u)) && ObservedForwards(WiringOf(s), WiringOf(u))
    ensures |u.attempts| == |s.attempts| + 1
  {
    hide CoupledInv, FreshPair;
    var id := RepairIdentity(s.loopRef, s.plan.planDigest, goalRef, s.goals[goalRef].goalId, ordinal);
    var e := RepairRef(ExternalEffectRef, id);
    assert ChainOf(e) == Some(RepairChain(id));
    assert Adds(WiringOf(s), WiringOf(u), e);
    hide Adds, Launches;
    AddKeepsCoupled(WiringOf(s), WiringOf(u), e);
  }

  lemma LiveRepair(s: Snapshot, u: Snapshot, goalRef: Str, ordinal: nat)
    requires EndingInv(EndingOf(s)) && goalRef in s.goals && s.goals[goalRef].state == Active
    requires SchedulesRepair(s, u, goalRef, ordinal)
    ensures EndingInv(EndingOf(u))
  {
    hide Launches;
    assert !NoneActive(s.goals);
    assert !SomeHalted(s.goals);
    assert !SomeHalted(u.goals);
    LiveGoalsMayChange(EndingOf(s), EndingOf(u));
  }

  lemma RepairStep(s: Snapshot, t: Reduced, ordinal: nat)
    requires Inv(s) && s.plan.activeGoalRef in s.goals && s.goals[s.plan.activeGoalRef].state == Active
    requires SchedulesRepair(s, t.snapshot, s.plan.activeGoalRef, ordinal)
    requires ordinal == CountedFor(s.policy, s.plan.activeGoalRef) + 1 <= 3
    requires t.snapshot.policy.Some? && t.snapshot.policy.value.goalRef == Some(s.plan.activeGoalRef)
             && t.snapshot.policy.value.repairAttempts == ordinal
    requires Count(t.events, Scheduling) == Count(t.events, Authorizing) == 1 && Count(t.events, Extending) == 0
    requires SnapshotPlanInv(t.snapshot) && GoalsAdvance(s, t.snapshot)
    ensures Keeps(s, t)
  {
    var u := t.snapshot;
    hide PlanInv, GoalsAdvance, CoupledInv, BoundInv, ObservedForwards, EndingInv, Launches, Count;
    RepairWiring(s, u, s.plan.activeGoalRef, ordinal);
    LiveRepair(s, u, s.plan.activeGoalRef, ordinal);
    AddLedger(s, u);
  }

  lemma DecideStep(s: Snapshot, t: Reduced)
    requires Inv(s) && DecidesOnly(s, t.snapshot) && PolicyInv(t.snapshot) && RepairsCounted(s, t)
    requires Count(t.events, Scheduling) == Count(t.events, Extending) == 0
    ensures Keeps(s, t)
  {
    hide PlanInv, CoupledInv, BoundInv, EndingInv, Count, PolicyInv, RepairsCounted;
  }

  lemma DecisionStep(s: Snapshot, t: Reduced)
    requires Inv(s) && s.plan.activeGoalRef in s.goals && s.goals[s.plan.activeGoalRef].state == Active
    requires CountsRepair(s, t, s.plan.activeGoalRef)
    requires SnapshotPlanInv(t.snapshot) && GoalsAdvance(s, t.snapshot)
    ensures Keeps(s, t)
  {
    hide PlanInv, GoalsAdvance, CoupledInv, BoundInv, EndingInv, SchedulesRepair, Count, Keeps;
    var before := CountedFor(s.policy, s.plan.activeGoalRef);
    var after := t.snapshot.policy.value.repairAttempts;
    CountNone(t.events, Extending);
    if after == before {
      CountNone(t.events, Scheduling);
      CountNone(t.events, Authorizing);
      DecideStep(s, t);
    } else {
      CountOne(t.events, Authorizing, 1);
      if DecidesOnly(s, t.snapshot) && |t.events| == 2 {
        CountNone(t.events, Scheduling);
        DecideStep(s, t);
      } else {
        CountOne(t.events, Scheduling, 2);
        RepairStep(s, t, after);
      }
    }
  }

  lemma StopStep(s: Snapshot, t: Reduced)
    requires Inv(s) && StopsLoop(s, t.snapshot) && Quiet(t.events)
    requires SnapshotPlanInv(t.snapshot) && GoalsAdvance(s, t.snapshot)
    requires Only(ActiveGoals(s.goals)) == Some(s.plan.activeGoalRef)
    ensures Keeps(s, t)
  {
    var u := t.snapshot;
    hide PlanInv, GoalsAdvance, CoupledInv, BoundInv, ObservedForwards;
    assert NoneActive(u.goals) by {
      forall g | g in u.goals ensures u.goals[g].state != Active {
        if g in s.goals && s.goals[g].state == Active { assert g in ActiveGoals(s.goals); }
      }
    }
    StopKeepsEnding(EndingOf(s), EndingOf(u), s.plan.activeGoalRef);
    hide EndingInv;
    GoalsMayChange(WiringOf(s), WiringOf(u));
    SettleKeepsBound(LedgerOf(s), LedgerOf(u));
    QuietCounts(t.events);
  }

  // Finalization -----------------------------------------------------------------------------------------------

  /** A finalization prepared on the current chain is about the goal the plan rests on, unless one was stopped. */
  lemma PreparedForActive(s: Snapshot, u: Snapshot, d: Disposition, ref: Str)
    requires BoundInv(LedgerOf(s)) && PreparesFinalization(s, u, d, ref) && !SomeHalted(s.goals)
    ensures u.finalizations[ref].goalRef == s.plan.activeGoalRef
  {
    hide CheckDisposition, ResultHolds;
    assert s.plan.activeGoalRef in s.goals && Finished(s.goals[s.plan.activeGoalRef]);
    assert s.goals[s.plan.activeGoalRef].state != Halted;
    assert CurrentBelongs(LedgerOf(s));
  }

  lemma PreparedHolds(s: Snapshot, u: Snapshot, d: Disposition, ref: Str)
    requires BoundInv(LedgerOf(s)) && PreparesFinalization(s, u, d, ref)
    ensures FinalizationHolds(EndingOf(u), ref)
  {
    hide BoundInv;
    if !SomeHalted(s.goals) { PreparedForActive(s, u, d, ref); }
  }

  lemma PrepareStep(s: Snapshot, t: Reduced, d: Disposition, ref: Str)
    requires Inv(s) && PreparesFinalization(s, t.snapshot, d, ref) && Quiet(t.events)
    ensures Keeps(s, t)
  {
    var u := t.snapshot;
    hide CoupledInv, BoundInv, PlanInv, FinalizationHolds, CheckDisposition, Quiet;
    PreparedHolds(s, u, d, ref);
    assert NoneActive(s.goals) by {
      forall g | g in s.goals ensures s.goals[g].state != Active { assert Finished(s.goals[g]); }
    }
    PrepareKeepsEnding(EndingOf(s), EndingOf(u), ref);
    hide EndingInv;
    FrameKeeps(s, t);
  }

  lemma CloseStep(s: Snapshot, t: Reduced, ref: Str)
    requires Inv(s) && ClosesExecution(s, t.snapshot, ref) && Quiet(t.events)
    ensures Keeps(s, t)
  {
    hide CoupledInv, BoundInv, PlanInv, Quiet, EndingInv;
    CloseKeepsEnding(EndingOf(s), EndingOf(t.snapshot), ref);
    FrameKeeps(s, t);
  }

  lemma StrengthenStep(s: Snapshot, t: Reduced, ref: Str)
    requires Inv(s) && StrengthensClosure(s, t.snapshot, ref) && Quiet(t.events)
    ensures Keeps(s, t)
  {
    hide CoupledInv, BoundInv, PlanInv, Quiet;
    assert s.execution.disposition == Some(s.finalizations[ref].disposition);
    hide EndingInv;
    CloseKeepsEnding(EndingOf(s), EndingOf(t.snapshot), ref);
    FrameKeeps(s, t);
  }
}
