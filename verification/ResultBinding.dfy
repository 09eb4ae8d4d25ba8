/** Results: what each stands on, and why the current one belongs to the goal the plan rests on. */
module ResultBinding {
  import opened Base
  import opened Records
  import opened Commands
  import opened Kernel
  import opened Transitions
  import opened EffectCoupling

  /** The part of a snapshot that binds results to goals, effects and evidence. */
  datatype Ledger = Ledger(
    goals: map<Str, Goal>, active: Str, effects: map<Str, Effect>, results: map<Str, ResultRec>,
    reports: map<Str, Report>, artifacts: map<Str, Artifact>, current: Option<Str>)

  function LedgerOf(s: Snapshot): Ledger {
    Ledger(s.goals, s.plan.activeGoalRef, s.effects, s.results, s.reports, s.artifacts, s.currentResult)
  }

  /** No result refers to a still-committed effect, and one is acknowledged exactly when it has an artifact. */
  predicate ResultHolds(l: Ledger, ref: Str) {
    && ref in l.results
    && var result := l.results[ref];
       && result.effectRef in l.effects && l.effects[result.effectRef].state != Committed
       && result.attemptRef == l.effects[result.effectRef].attemptRef
       && result.goalRef in l.goals && result.reportRef in l.reports
       && (result.state == Acknowledged <==> result.artifactRef.Some?)
       && (result.artifactRef.Some? ==> result.artifactRef.value in l.artifacts)
  }

  predicate CurrentBelongs(l: Ledger) {
    l.current.Some? && l.current.value in l.results && l.results[l.current.value].goalRef == l.active
  }

  predicate SomeResultOf(l: Ledger, goalRef: Str) { exists r :: r in l.results && l.results[r].goalRef == goalRef }

  /** Once the goal at the active index has been advanced, the current result is one of its results. */
  predicate CurrentIsLatest(l: Ledger) {
    && (l.current.None? ==> l.results == map[])
    && (l.current.Some? ==> l.current.value in l.results)
    && (SomeResultOf(l, l.active) ==> CurrentBelongs(l))
    && l.active in l.goals
    && (l.goals[l.active].state !in {Active, Halted} ==> CurrentBelongs(l))
  }

  predicate BoundInv(l: Ledger) {
    && (forall r :: r in l.results ==> ResultHolds(l, r))
    && CurrentIsLatest(l)
  }

  /** Effects move forwards, goals keep their names, the active goal keeps its state. */
  lemma GrowKeepsBound(l: Ledger, m: Ledger)
    requires BoundInv(l) && m == l.(goals := m.goals, effects := m.effects)
    requires l.goals.Keys <= m.goals.Keys && m.goals[m.active].state == l.goals[l.active].state
    requires forall e :: e in l.effects ==> e in m.effects && EffectMoves(l.effects[e], m.effects[e])
    ensures BoundInv(m)
  {
    forall r | r in m.results ensures ResultHolds(m, r) {
      assert ResultHolds(l, r);
    }
    assert SomeResultOf(m, m.active) ==> SomeResultOf(l, l.active);
  }

  /** The active goal settles: an advance rests on a result bound to it, a stop needs none. */
  lemma SettleKeepsBound(l: Ledger, m: Ledger)
    requires BoundInv(l) && m == l.(goals := m.goals)
    requires m.goals.Keys == l.goals.Keys
    requires m.goals[m.active].state in {Active, Halted} || SomeResultOf(l, l.active)
    ensures BoundInv(m)
  {
    forall r | r in m.results ensures ResultHolds(m, r) {
      assert ResultHolds(l, r);
    }
    assert SomeResultOf(m, m.active) ==> SomeResultOf(l, l.active);
  }

  /** The plan moves to a fresh goal, of which there is no result yet. */
  lemma MoveKeepsBound(l: Ledger, m: Ledger)
    requires BoundInv(l) && m == l.(goals := m.goals, effects := m.effects, active := m.active)
    requires l.goals.Keys <= m.goals.Keys && m.active in m.goals && m.active !in l.goals
    requires m.goals[m.active].state == Active
    requires forall e :: e in l.effects ==> e in m.effects && EffectMoves(l.effects[e], m.effects[e])
    ensures BoundInv(m)
  {
    forall r | r in m.results ensures ResultHolds(m, r) && m.results[r].goalRef != m.active {
      assert ResultHolds(l, r);
    }
  }

  lemma StageKeepsBound(l: Ledger, m: Ledger, ref: Str)
    requires BoundInv(l) && ref in m.results && m.current == Some(ref)
    requires m == l.(results := l.results[ref := m.results[ref]], reports := m.reports, current := m.current)
    requires l.reports.Keys <= m.reports.Keys
    requires var result := m.results[ref];
             && result.goalRef == l.active && result.effectRef in l.effects
             && l.effects[result.effectRef].state != Committed
             && result.attemptRef == l.effects[result.effectRef].attemptRef
             && result.reportRef in m.reports && result.state == Staged && result.artifactRef == None
    ensures BoundInv(m)
  {
    forall r | r in m.results ensures ResultHolds(m, r) {
      if r != ref { assert ResultHolds(l, r); }
    }
  }

  lemma AcknowledgeKeepsBound(l: Ledger, m: Ledger, ref: Str)
    requires BoundInv(l) && ref in l.results && ref in m.results
    requires m == l.(results := l.results[ref := m.results[ref]], reports := m.reports, artifacts := m.artifacts)
    requires l.reports.Keys <= m.reports.Keys && l.artifacts.Keys <= m.artifacts.Keys
    requires m.results[ref].state == Acknowledged && m.results[ref].artifactRef.Some?
             && m.results[ref].artifactRef.value in m.artifacts
    requires m.results[ref] == l.results[ref].(state := m.results[ref].state, artifactRef := m.results[ref].artifactRef,
                                               revision := m.results[ref].revision)
    ensures BoundInv(m)
  {
    assert ResultHolds(l, ref);
    forall r | r in m.results ensures ResultHolds(m, r) {
      assert ResultHolds(l, r);
    }
    forall g | SomeResultOf(m, g) ensures SomeResultOf(l, g) {
      var r :| r in m.results && m.results[r].goalRef == g;
      assert l.results[r].goalRef == g;
    }
  }
}
