/** What every run of one loop guarantees: caps and counters, the direction of travel, what success and closure
    say. */
module Safety {
  import opened Base
  import opened Records
  import opened Commands
  import opened Authority
  import opened Kernel
  import opened Transitions
  import opened PlanProgress
  import opened EffectCoupling
  import opened ResultBinding
  import opened ClosureBacking
  import opened Invariant
  import opened Runs

  /** One committed command, as the theorems below use it. */
  lemma CommitForwards(s: Snapshot, i: Input, t: Reduced)
    requires Inv(s) && Commit(Some(s), i) == Ok(t)
    ensures Inv(t.snapshot) && Fits(t.snapshot) && Forwards(s, t)
  {
    hide Commit, Inv, Fits, Forwards;
    CommitKeeps(s, i, t);
    KeepsInv(s, t);
  }

  // The attempt cap --------------------------------------------------------------------------------------------

  lemma SubsetOfSize<T>(a: set<T>, b: set<T>)
    requires a <= b && |b| <= |a|
    ensures a == b
  {
    assert |b - a| == |b| - |a|;
    assert b == a + (b - a);
  }

  lemma AttemptsOnlyGrow(s: Snapshot, t: Reduced)
    requires Forwards(s, t)
    ensures s.attempts.Keys <= t.snapshot.attempts.Keys && s.plan.activeIndex <= t.snapshot.plan.activeIndex
    ensures |t.snapshot.attempts| == |s.attempts| + (t.snapshot.plan.activeIndex - s.plan.activeIndex)
                                     + Count(t.events, Scheduling)
  {
    hide Count, EffectMoves, AttemptMoves, BudgetForwards, RepairsCounted;
  }

  /** At the cap nothing can be materialised or scheduled any more. */
  lemma CapIsFinal(s: Snapshot, i: Input, t: Reduced)
    requires Inv(s) && |s.attempts| == MAX_COLLECTION_ITEMS && Commit(Some(s), i) == Ok(t)
    ensures t.snapshot.plan.activeIndex == s.plan.activeIndex && Count(t.events, Scheduling) == 0
    ensures t.snapshot.attempts.Keys == s.attempts.Keys
  {
    hide Commit, Inv, Forwards, Count;
    CommitForwards(s, i, t);
    AttemptsOnlyGrow(s, t);
    SubsetOfSize(s.attempts.Keys, t.snapshot.attempts.Keys);
  }

  // The direction of travel ------------------------------------------------------------------------------------

  predicate Settles(a: Observation, b: Observation) { a == b || b == Observed || a == Committed }

  /** How a later snapshot of a run relates to an earlier one. */
  predicate Later(s: Snapshot, t: Snapshot) {
    && t.loopRef == s.loopRef && t.plan.planDigest == s.plan.planDigest && t.plan.goalCount == s.plan.goalCount
    && s.plan.activeIndex <= t.plan.activeIndex
    && s.plan.budget.invocations <= t.plan.budget.invocations && s.plan.budget.seconds <= t.plan.budget.seconds
    && s.goals.Keys <= t.goals.Keys
    && (forall g :: g in s.goals && s.goals[g].state != Active ==> t.goals[g] == s.goals[g])
    && s.effects.Keys <= t.effects.Keys && s.attempts.Keys <= t.attempts.Keys && s.hosts.Keys <= t.hosts.Keys
    && (forall e :: e in s.effects ==> SameEffect(s.effects[e], t.effects[e]))
    && (forall h :: h in s.hosts ==> t.hosts[h] == s.hosts[h])
  }

  /** The same effect, seen no less than before. */
  predicate SameEffect(e: Effect, f: Effect) {
    && f == e.(receipt := f.receipt, revision := f.revision, state := f.state)
    && e.revision <= f.revision && Settles(e.state, f.state)
  }

  lemma LaterChains(s: Snapshot, t: Snapshot, u: Snapshot)
    requires Later(s, t) && Later(t, u)
    ensures Later(s, u)
  {
    forall e | e in s.effects ensures SameEffect(s.effects[e], u.effects[e]) {
      assert SameEffect(s.effects[e], t.effects[e]) && SameEffect(t.effects[e], u.effects[e]);
    }
  }

  lemma ForwardsIsLater(s: Snapshot, t: Reduced)
    requires Forwards(s, t)
    ensures Later(s, t.snapshot)
  {
    hide Count, AttemptMoves, AttemptsConserved, RepairsCounted;
    forall e | e in s.effects ensures SameEffect(s.effects[e], t.snapshot.effects[e]) {
      assert EffectMoves(s.effects[e], t.snapshot.effects[e]);
    }
  }

  /** From any point of a run to its end: the plan position and the budgets never decrease, a goal that left ACTIVE
      never changes again, an observed effect stays observed and a bound host stays bound. */
  lemma {:induction false} RunsMoveForwards(run: seq<Input>, k: nat)
    requires k <= |run| && After(run[..k]).Some?
    ensures After(run).Some? && Later(After(run[..k]).value, After(run).value)
  {
    hide Commit, Inv, Fits, Forwards, Later;
    if k == |run| {
      assert run[..k] == run;
      LaterIsReflexive(After(run).value);
    } else {
      var front, last := run[..|run| - 1], run[|run| - 1];
      assert front[..k] == run[..k];
      RunsMoveForwards(front, k);
      LastCommand(run);
      if Commit(After(front), last).Ok? {
        ReachableInv(front);
        var t := Commit(After(front), last).value;
        CommitForwards(After(front).value, last, t);
        ForwardsIsLater(After(front).value, t);
        LaterChains(After(run[..k]).value, After(front).value, t.snapshot);
      }
    }
  }

  lemma LaterIsReflexive(s: Snapshot)
    ensures Later(s, s)
  {
  }

  // Repairs ----------------------------------------------------------------------------------------------------

  /** The plan either rests on the same goal or has moved to one that did not exist before. */
  lemma ActiveMoves(s: Snapshot, t: Snapshot)
    requires SnapshotPlanInv(s) && SnapshotPlanInv(t) && GoalsAdvance(s, t)
    ensures t.plan.activeGoalRef == s.plan.activeGoalRef <==> t.plan.activeIndex == s.plan.activeIndex
    ensures t.plan.activeGoalRef != s.plan.activeGoalRef ==> t.plan.activeGoalRef !in s.goals
    ensures s.plan.activeGoalRef in s.goals
  {
    assert GoalAt(s.loopRef, s.plan, s.goals, s.plan.activeIndex);
    assert GoalAt(t.loopRef, t.plan, t.goals, t.plan.activeIndex);
    var order := t.goals[s.plan.activeGoalRef].order;
    assert order == s.plan.activeIndex;
    assert s.plan.activeGoalRef == GoalRefAt(t.loopRef, t.plan, order);
  }

  /** `n` repairs authorised for a goal, against the counters the snapshot keeps. */
  predicate Accounted(s: Snapshot, goal: Str, n: nat) {
    && n <= 3
    && (goal !in s.goals ==> n == 0)
    && (goal == s.plan.activeGoalRef ==> n == CountedFor(s.policy, goal))
  }

  lemma GoalsPersist(s: Snapshot, t: Snapshot)
    requires GoalsAdvance(s, t)
    ensures s.goals.Keys <= t.goals.Keys
  {
  }

  lemma RepairsStep(s: Snapshot, t: Reduced, goal: Str, n: nat)
    requires Inv(s) && Inv(t.snapshot) && Forwards(s, t) && Accounted(s, goal, n)
    ensures Accounted(t.snapshot, goal, n + if s.plan.activeGoalRef == goal then Count(t.events, Authorizing) else 0)
  {
    hide Count, CoupledInv, BoundInv, EndingInv, ObservedForwards, BudgetForwards, AttemptsConserved, PlanInv, GoalsAdvance;
    ActiveMoves(s, t.snapshot);
    GoalsPersist(s, t.snapshot);
  }

  lemma {:induction false} RepairsAreAccounted(run: seq<Input>, goal: Str)
    ensures After(run).None? ==> RepairsOf(run, goal) == 0
    ensures After(run).Some? ==> Accounted(After(run).value, goal, RepairsOf(run, goal))
  {
    hide Commit, Inv, Forwards, Count, Accounted;
    if run != [] {
      var front, last := run[..|run| - 1], run[|run| - 1];
      RepairsAreAccounted(front, goal);
      ReachableInv(front);
      LastCommand(run);
      match Commit(After(front), last)
      case Err(_) => EmptyCount(Authorizing);
      case Ok(t) =>
        if After(front).None? {
          FreshCounter(last, t, goal);
        } else {
          CommitForwards(After(front).value, last, t);
          RepairsStep(After(front).value, t, goal, RepairsOf(front, goal));
        }
    }
  }

  lemma FreshCounter(i: Input, t: Reduced, goal: Str)
    requires Commit(None, i) == Ok(t)
    ensures Accounted(t.snapshot, goal, 0)
  {
    hide Commit, Inv;
    CommitCreates(i, t);
  }

  /** No goal is ever granted more than three repairs. */
  lemma RepairsAreBounded(run: seq<Input>, goal: Str)
    ensures RepairsOf(run, goal) <= 3
  {
    RepairsAreAccounted(run, goal);
    hide CountedFor, Runs.After, RepairsOf;
  }

  // Runtime budgets --------------------------------------------------------------------------------------------

  /** What is left of the runtime limits; negative when the plan was created beyond them. */
  function Headroom(b: Budget): int { (MAX_INVOCATIONS - b.invocations) + (MAX_SECONDS - b.seconds) }

  lemma BudgetStep(s: Snapshot, t: Reduced)
    requires Forwards(s, t)
    ensures var n := Count(t.events, Extending);
            && ExtensionsOf(t.snapshot.plan) == ExtensionsOf(s.plan) + n
            && Headroom(t.snapshot.plan.budget) + n <= Headroom(s.plan.budget)
            && (n > 0 ==> Headroom(t.snapshot.plan.budget) >= 0)
  {
    hide Count, GoalsAdvance, ObservedForwards, AttemptsConserved, RepairsCounted;
  }

  /** `budget_extension.revision` counts the extensions of the whole run. */
  lemma {:induction false} ExtensionsAreCounted(run: seq<Input>)
    requires After(run).Some?
    ensures ExtensionsOf(After(run).value.plan) == Count(Log(run), Extending)
  {
    hide Commit, Inv, Forwards, Count, ExtensionsOf, Fits;
    var front, last := run[..|run| - 1], run[|run| - 1];
    ReachableInv(front);
    LastCommand(run);
    match Commit(After(front), last)
    case Err(_) => ExtensionsAreCounted(front);
    case Ok(t) =>
      CountAppend(Log(front), t.events, Extending);
      if After(front).None? {
        CommitCreates(last, t);
        QuietCounts(t.events);
        EmptyCount(Extending);
      } else {
        ExtensionsAreCounted(front);
        CommitForwards(After(front).value, last, t);
        BudgetStep(After(front).value, t);
      }
  }

  /** Each extension costs headroom, so from any point of a run only so many can follow. */
  lemma {:induction false} ExtensionsAreFinite(run: seq<Input>, k: nat)
    requires k <= |run| && After(run[..k]).Some?
    ensures After(run).Some?
    ensures var n := ExtensionsOf(After(run).value.plan) - ExtensionsOf(After(run[..k]).value.plan);
            && 0 <= n
            && Headroom(After(run).value.plan.budget) + n <= Headroom(After(run[..k]).value.plan.budget)
            && (n > 0 ==> n <= Headroom(After(run[..k]).value.plan.budget))
  {
    hide Commit, Inv, Forwards, Count, ExtensionsOf, Fits, Headroom;
    if k == |run| {
      assert run[..k] == run;
    } else {
      var front, last := run[..|run| - 1], run[|run| - 1];
      assert front[..k] == run[..k];
      ExtensionsAreFinite(front, k);
      LastCommand(run);
      if Commit(After(front), last).Ok? {
        ReachableInv(front);
        var t := Commit(After(front), last).value;
        CommitForwards(After(front).value, last, t);
        BudgetStep(After(front).value, t);
      }
    }
  }

  // Success and closure ----------------------------------------------------------------------------------------

  /** The plan has run to its end: every goal exists and is DONE or SKIPPED, the last one DONE. */
  predicate WholePlanRan(s: Snapshot) {
    && 1 <= s.plan.goalCount == s.plan.activeIndex + 1
    && |s.plan.ids| == |s.plan.slices| == s.plan.goalCount
    && (forall i :: 0 <= i < s.plan.goalCount ==> GoalPassed(s, GoalRefAt(s.loopRef, s.plan, i)))
    && (forall g :: g in s.goals ==> GoalPassed(s, g))
    && s.plan.activeGoalRef == GoalRefAt(s.loopRef, s.plan, s.plan.activeIndex)
    && s.goals[s.plan.activeGoalRef].state == Done
  }

  predicate GoalPassed(s: Snapshot, g: Str) { g in s.goals && Passed(s.goals[g]) }

  lemma PassedToTheEnd(s: Snapshot)
    requires SnapshotPlanInv(s) && s.plan.activeGoalRef in s.goals && s.goals[s.plan.activeGoalRef].state == Done
    ensures WholePlanRan(s)
  {
    forall i | 0 <= i < s.plan.goalCount ensures GoalPassed(s, GoalRefAt(s.loopRef, s.plan, i)) {
      assert GoalAt(s.loopRef, s.plan, s.goals, i);
    }
    forall g | g in s.goals ensures GoalPassed(s, g) {
      assert g == GoalRefAt(s.loopRef, s.plan, s.goals[g].order);
    }
  }

  lemma RanMeansNoneHalted(s: Snapshot)
    requires WholePlanRan(s)
    ensures !SomeHalted(s.goals)
  {
    forall g | g in s.goals ensures s.goals[g].state != Halted { assert GoalPassed(s, g); }
  }

  /** A finalization with disposition SUCCEEDED names a DONE goal; the whole plan ran if and only if no goal was
      stopped. SUCCEEDED_WITH_LIMITATIONS says some goal was skipped and, if and only if none was stopped, every
      goal of the plan was passed. */
  predicate SuccessSound(s: Snapshot) {
    forall f :: f in s.finalizations ==> SuccessOf(s, s.finalizations[f])
  }

  predicate SuccessOf(s: Snapshot, f: Finalization) {
    && (f.disposition == Succeeded ==>
          && f.goalRef in s.goals && s.goals[f.goalRef].state == Done
          && (WholePlanRan(s) <==> !SomeHalted(s.goals))
          && (!SomeHalted(s.goals) ==> f.goalRef == s.plan.activeGoalRef))
    && (f.disposition == SucceededWithLimitations ==>
          && SomeSkipped(s.goals)
          && (PlanPassed(s) <==> !SomeHalted(s.goals)))
  }

  predicate PlanPassed(s: Snapshot) {
    s.plan.activeIndex + 1 == s.plan.goalCount && forall g :: g in s.goals ==> GoalPassed(s, g)
  }

  lemma EndedPlanPassed(s: Snapshot)
    requires SnapshotPlanInv(s) && s.plan.activeGoalRef in s.goals && Passed(s.goals[s.plan.activeGoalRef])
    ensures PlanPassed(s)
  {
    forall g | g in s.goals ensures GoalPassed(s, g) {
      assert g == GoalRefAt(s.loopRef, s.plan, s.goals[g].order);
      assert GoalAt(s.loopRef, s.plan, s.goals, s.goals[g].order);
    }
  }

  lemma PassedMeansNoneHalted(s: Snapshot)
    requires PlanPassed(s)
    ensures !SomeHalted(s.goals)
  {
    forall g | g in s.goals ensures s.goals[g].state != Halted { assert GoalPassed(s, g); }
  }

  lemma FinalizationsAreSound(s: Snapshot, f: Str)
    requires SnapshotPlanInv(s) && EndingInv(EndingOf(s)) && f in s.finalizations
    ensures SuccessOf(s, s.finalizations[f])
  {
    assert FinalizationHolds(EndingOf(s), f);
    hide PlanInv, SomeHalted, WholePlanRan, EndingInv, PlanPassed;
    if !SomeHalted(s.goals) {
      if s.finalizations[f].disposition == Succeeded { PassedToTheEnd(s); }
      if s.finalizations[f].disposition == SucceededWithLimitations { EndedPlanPassed(s); }
    }
    if WholePlanRan(s) { RanMeansNoneHalted(s); }
    if PlanPassed(s) { PassedMeansNoneHalted(s); }
  }

  lemma SuccessMeansPlanRan(run: seq<Input>)
    ensures After(run).Some? ==> SuccessSound(After(run).value)
  {
    hide Commit, Runs.After, CoupledInv, BoundInv, PlanInv, EndingInv, Fits, SuccessOf;
    ReachableInv(run);
    if After(run).Some? {
      var s := After(run).value;
      forall f | f in s.finalizations ensures SuccessOf(s, s.finalizations[f]) { FinalizationsAreSound(s, f); }
    }
  }

  /** Whenever execution is TERMINAL, it was stopped (locally assured, with a stopped goal), or its closure names a
      closed finalization with the same disposition and strength; success is always STRICT. */
  predicate ClosureSound(s: Snapshot) {
    s.execution.state == Terminal ==>
      && s.execution.disposition.Some? && NoneActive(s.goals)
      && (s.execution.disposition == Some(Stopped) ==> s.closure.strength == Local && SomeHalted(s.goals))
      && (s.execution.disposition != Some(Stopped) ==> Backed(EndingOf(s)))
      && (Success(s.execution.disposition.value) ==> s.closure.strength == Strict)
  }

  lemma EndingIsSound(s: Snapshot)
    requires EndingInv(EndingOf(s))
    ensures ClosureSound(s)
  {
    if s.execution.state == Terminal && s.execution.disposition != Some(Stopped) {
      assert FinalizationHolds(EndingOf(s), s.closure.finalizationRef.value);
    }
  }

  lemma ClosureIsBacked(run: seq<Input>)
    ensures After(run).Some? ==> ClosureSound(After(run).value)
  {
    hide Commit, Runs.After, CoupledInv, BoundInv, PlanInv, EndingInv, ClosureSound, Fits;
    ReachableInv(run);
    if After(run).Some? { EndingIsSound(After(run).value); }
  }
}
