/** Finalizations and closure: what a terminal disposition is backed by, and what success says about the plan. */
module ClosureBacking {
  import opened Base
  import opened Records
  import opened Commands
  import opened Kernel
  import opened Transitions

  /** The part of a snapshot that closing a loop touches. */
  datatype Ending = Ending(
    goals: map<Str, Goal>, active: Str, finalizations: map<Str, Finalization>, execution: Execution, closure: Closure)

  function EndingOf(s: Snapshot): Ending {
    Ending(s.goals, s.plan.activeGoalRef, s.finalizations, s.execution, s.closure)
  }

  predicate Success(d: Disposition) { d == Succeeded || d == SucceededWithLimitations }

  predicate NoneActive(goals: map<Str, Goal>) { forall g :: g in goals ==> goals[g].state != Active }

  predicate SomeHalted(goals: map<Str, Goal>) { exists g :: g in goals && goals[g].state == Halted }

  /** What a finalization was prepared on, and the strength with which it was closed. */
  predicate FinalizationHolds(n: Ending, ref: Str) {
    && ref in n.finalizations
    && var f := n.finalizations[ref];
       && f.disposition != Stopped && f.goalRef in n.goals
       && (f.closed ==> f.strength in {Cooperative, Strict} && (Success(f.disposition) ==> f.strength == Strict))
       && (!f.closed ==> f.strength == NoStrength)
       && (f.disposition == Succeeded ==> n.goals[f.goalRef].state == Done)
       && (f.disposition == SucceededWithLimitations ==>
             n.goals[f.goalRef].state in {Done, Skipped} && SomeSkipped(n.goals))
       && (!SomeHalted(n.goals) ==> f.goalRef == n.active)
  }

  /** A terminal execution that was not stopped names the closed finalization it ended with. */
  predicate Backed(n: Ending) {
    && n.closure.finalizationRef.Some? && n.closure.finalizationRef.value in n.finalizations
    && var f := n.finalizations[n.closure.finalizationRef.value];
       f.closed && n.execution.disposition == Some(f.disposition) && n.closure.strength == f.strength
  }

  predicate EndingInv(n: Ending) {
    && (forall f :: f in n.finalizations ==> FinalizationHolds(n, f))
    && (n.finalizations != map[] || SomeHalted(n.goals) ==> NoneActive(n.goals) && n.execution.state in {Finalizing, Terminal})
    && (n.execution.state == Terminal ==>
          && n.execution.disposition.Some?
          && (n.execution.disposition == Some(Stopped) ==> n.closure.strength == Local && SomeHalted(n.goals))
          && (n.execution.disposition != Some(Stopped) ==> Backed(n)))
  }

  /** Live loops have no finalization and no stopped goal, so their goals may change freely. */
  lemma LiveGoalsMayChange(n: Ending, m: Ending)
    requires EndingInv(n) && m == n.(goals := m.goals, active := m.active)
    requires !NoneActive(n.goals) && !SomeHalted(m.goals)
    ensures EndingInv(m) && n.finalizations == map[]
  {
  }

  lemma ExecutionMayToggle(n: Ending, m: Ending)
    requires EndingInv(n) && m == n.(execution := m.execution)
    requires n.execution.state in {Running, Paused} && m.execution.state in {Running, Paused}
    ensures EndingInv(m)
  {
  }

  lemma StopKeepsEnding(n: Ending, m: Ending, g: Str)
    requires EndingInv(n) && n.execution.state in {Running, Paused} && g in n.goals && g in m.goals
    requires m == n.(goals := m.goals, execution := m.execution, closure := m.closure)
    requires m.goals[g].state == Halted && NoneActive(m.goals)
    requires m.execution.state == Terminal && m.execution.disposition == Some(Stopped) && m.closure.strength == Local
    ensures EndingInv(m)
  {
  }

  lemma PrepareKeepsEnding(n: Ending, m: Ending, ref: Str)
    requires EndingInv(n) && NoneActive(n.goals) && ref in m.finalizations
    requires m == n.(finalizations := n.finalizations[ref := m.finalizations[ref]], execution := m.execution)
    requires m.execution.state == Finalizing && FinalizationHolds(m, ref)
    ensures EndingInv(m)
  {
    forall f | f in m.finalizations ensures FinalizationHolds(m, f) {
      if f != ref { assert FinalizationHolds(n, f); }
    }
  }

  lemma CloseKeepsEnding(n: Ending, m: Ending, ref: Str)
    requires EndingInv(n) && ref in n.finalizations && ref in m.finalizations
    requires m == n.(finalizations := n.finalizations[ref := m.finalizations[ref]], execution := m.execution,
                     closure := m.closure)
    requires var f := n.finalizations[ref]; var f' := m.finalizations[ref];
             && f' == f.(strength := f'.strength, closed := true, revision := f'.revision)
             && f'.strength in {Cooperative, Strict} && (Success(f.disposition) ==> f'.strength == Strict)
             && m.closure.strength == f'.strength && m.closure.finalizationRef == Some(ref)
             && m.execution.state == Terminal && m.execution.disposition == Some(f.disposition)
    ensures EndingInv(m)
  {
    assert FinalizationHolds(n, ref);
    forall f | f in m.finalizations ensures FinalizationHolds(m, f) {
      assert FinalizationHolds(n, f);
    }
  }
}
