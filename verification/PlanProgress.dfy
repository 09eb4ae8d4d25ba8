/** The plan-progress invariant: which goals exist, in which order and state. */
module PlanProgress {
  import opened Base
  import opened Records
  import opened Commands
  import opened Authority
  import opened Kernel
  import opened Transitions

  predicate PlanShape(p: Plan) {
    && 1 <= p.goalCount && |p.ids| == p.goalCount && |p.slices| == p.goalCount
    && NoRepeats(p.ids) && 0 <= p.activeIndex < p.goalCount && p.capacity != CapacityUnknown
  }

  function IdentityAt(loop: Str, p: Plan, i: int): GoalIdentity
    requires 0 <= i < |p.ids| && |p.slices| == |p.ids|
  {
    GoalIdentity(loop, p.planDigest, p.ids[i], p.slices[i])
  }

  function GoalRefAt(loop: Str, p: Plan, i: int): Str
    requires 0 <= i < |p.ids| && |p.slices| == |p.ids|
  {
    PlanRef(GoalRef, IdentityAt(loop, p, i))
  }

  predicate Passed(g: Goal) { g.state == Done || g.state == Skipped }

  /** The goal at a plan position is materialised under the reference derived from its planned id and slice, and
      has been passed if the plan has moved beyond it. */
  predicate GoalAt(loop: Str, p: Plan, goals: map<Str, Goal>, i: int)
    requires 0 <= i < |p.ids| && |p.slices| == |p.ids|
  {
    var ref := GoalRefAt(loop, p, i);
    && ref in goals
    && var g := goals[ref];
       && g.order == i && g.goalId == p.ids[i] && g.slice == p.slices[i]
       && g.dependsOn == (if i == 0 then None else Some(GoalRefAt(loop, p, i - 1)))
       && g.chain.goalRef == ref && 1 <= g.maxAttempts <= 3
       && (g.state == Skipped ==> g.requirement == Optional)
       && (i < p.activeIndex ==> Passed(g))
  }

  /** The goals are exactly those at orders 0..active index; all before the active one are DONE or SKIPPED; the
      plan only rests on a passed goal when there is no goal left. */
  predicate PlanInv(loop: Str, p: Plan, goals: map<Str, Goal>) {
    && PlanShape(p)
    && p.activeGoalRef == GoalRefAt(loop, p, p.activeIndex)
    && (forall i :: 0 <= i <= p.activeIndex ==> GoalAt(loop, p, goals, i))
    && (forall g :: g in goals ==> 0 <= goals[g].order <= p.activeIndex && g == GoalRefAt(loop, p, goals[g].order))
    && p.activeGoalRef in goals && (Passed(goals[p.activeGoalRef]) ==> p.activeIndex + 1 == p.goalCount)
  }

  predicate SnapshotPlanInv(s: Snapshot) { PlanInv(s.loopRef, s.plan, s.goals) }

  /** A goal that left ACTIVE never changes state again, goals persist, and the active index never decreases. */
  predicate GoalsAdvance(s: Snapshot, t: Snapshot) {
    && s.loopRef == t.loopRef && s.plan.planDigest == t.plan.planDigest && s.plan.goalCount == t.plan.goalCount
    && s.plan.activeIndex <= t.plan.activeIndex <= s.plan.activeIndex + 1
    && s.goals.Keys <= t.goals.Keys
    && (forall g :: g in s.goals && s.goals[g].state != Active ==> t.goals[g] == s.goals[g])
    && (forall g :: g in s.goals ==> t.goals[g].goalId == s.goals[g].goalId
                                     && t.goals[g].order == s.goals[g].order
                                     && t.goals[g].maxAttempts == s.goals[g].maxAttempts
                                     && t.goals[g].requirement == s.goals[g].requirement
                                     && t.goals[g].objectiveDigest == s.goals[g].objectiveDigest)
  }

  /** At most one goal is ACTIVE, and it is the one at the active index. */
  lemma ActiveIsCurrent(loop: Str, p: Plan, goals: map<Str, Goal>)
    requires PlanInv(loop, p, goals)
    ensures ActiveGoals(goals) <= {p.activeGoalRef}
    ensures p.activeGoalRef in goals
    ensures goals[p.activeGoalRef].state == Active <==> Only(ActiveGoals(goals)) == Some(p.activeGoalRef)
  {
    forall g | g in ActiveGoals(goals) ensures g == p.activeGoalRef {
      assert g == GoalRefAt(loop, p, goals[g].order);
      assert GoalAt(loop, p, goals, goals[g].order);
    }
    if goals[p.activeGoalRef].state == Active {
      assert ActiveGoals(goals) == {p.activeGoalRef};
    }
  }

  lemma SameGoalsAdvance(s: Snapshot, u: Snapshot)
    requires u.goals == s.goals && u.loopRef == s.loopRef && u.plan.planDigest == s.plan.planDigest
    requires u.plan.goalCount == s.plan.goalCount && u.plan.activeIndex == s.plan.activeIndex
    ensures GoalsAdvance(s, u)
  {
  }

  // Distinct ids and the id-to-slice pairing -----------------------------------------------------------------

  lemma ElementsSize(ids: seq<Str>)
    ensures |Elements(ids)| <= |ids|
    ensures |Elements(ids)| == |ids| ==> NoRepeats(ids)
  {
    if ids != [] {
      var front := ids[..|ids| - 1];
      var last := ids[|ids| - 1];
      ElementsSize(front);
      assert Elements(ids) == Elements(front) + {last};
      if |Elements(ids)| == |ids| {
        assert last !in Elements(front);
        forall i, j | 0 <= i < j < |ids| ensures ids[i] != ids[j] {
          if j == |ids| - 1 {
            assert ids[i] == front[i] && front[i] in Elements(front);
          } else {
            assert ids[i] == front[i] && ids[j] == front[j];
          }
        }
      }
    }
  }

  lemma DistinctMeansNoRepeats(ids: seq<Str>)
    requires Distinct(ids)
    ensures NoRepeats(ids)
  {
    assert Elements(ids) == set i | 0 <= i < |ids| :: ids[i];
    ElementsSize(ids);
  }

  lemma PairingStep(ids: seq<Str>, slices: seq<Str>)
    requires |ids| == |slices| && ids != []
    ensures var n := |ids| - 1;
            Pairing(ids, slices) == Pairing(ids[..n], slices[..n])[ids[n] := slices[n]]
  {
  }

  lemma {:induction false} PairingKeys(ids: seq<Str>, slices: seq<Str>)
    requires |ids| == |slices|
    ensures forall k :: k in Pairing(ids, slices) <==> k in ids
  {
    if ids != [] {
      var n := |ids| - 1;
      PairingStep(ids, slices);
      PairingKeys(ids[..n], slices[..n]);
      assert ids == ids[..n] + [ids[n]];
    }
  }

  lemma {:induction false} PairingLookup(ids: seq<Str>, slices: seq<Str>, i: int)
    requires |ids| == |slices| && NoRepeats(ids) && 0 <= i < |ids|
    ensures ids[i] in Pairing(ids, slices) && Pairing(ids, slices)[ids[i]] == slices[i]
  {
    var n := |ids| - 1;
    PairingStep(ids, slices);
    if i < n {
      PairingLookup(ids[..n], slices[..n], i);
    }
  }

  lemma PositionIsUnique(ids: seq<Str>, i: int)
    requires NoRepeats(ids) && 0 <= i < |ids|
    ensures ids[i] in ids && PositionOf(ids, ids[i]) == i
  {
  }

  // One step -------------------------------------------------------------------------------------------------

  lemma CreateEstablishesPlan(r: Request, ctx: Context, c: Startup, t: Reduced)
    requires AfterCreate(None, r, ctx, c) == Ok(t)
    ensures SnapshotPlanInv(t.snapshot)
  {
    CreateDelta(r, ctx, c, t);
    hide AfterCreate;
    DistinctMeansNoRepeats(c.ids);
  }

  /** A plan that agrees with another up to its active index. */
  predicate SameStart(p: Plan, q: Plan) {
    && q == p.(ids := q.ids, slices := q.slices, indexDigest := q.indexDigest, revision := q.revision)
    && |q.ids| == |p.ids| && |q.slices| == |p.slices| && p.activeIndex < |p.ids| && p.activeIndex < |p.slices|
    && forall i :: 0 <= i <= p.activeIndex ==> q.ids[i] == p.ids[i] && q.slices[i] == p.slices[i]
  }

  lemma RevisionKeepsStart(p: Plan, q: Plan, reason: string)
    requires ValidRevision(p, q.ids, q.slices, q.indexDigest, q.revision, reason)
    requires q == p.(ids := q.ids, slices := q.slices, indexDigest := q.indexDigest, revision := q.revision)
    ensures SameStart(p, q) && NoRepeats(q.ids)
  {
    hide Distinct, Pairing, Elements, Is64, ValidReason, NoRepeats;
    DistinctMeansNoRepeats(q.ids);
    var k := p.activeIndex + 1;
    forall i | 0 <= i < k
      ensures q.ids[i] == p.ids[i] && q.slices[i] == p.slices[i]
    {
      assert q.ids[..k][i] == p.ids[..k][i] && q.slices[..k][i] == p.slices[..k][i];
    }
  }

  lemma ReorderKeepsGoals(loop: Str, p: Plan, q: Plan, goals: map<Str, Goal>)
    requires PlanInv(loop, p, goals) && SameStart(p, q) && NoRepeats(q.ids)
    ensures Reordered(goals, q.ids) == goals
  {
    forall g | g in goals ensures Reordered(goals, q.ids)[g] == goals[g] {
      var i := goals[g].order;
      assert GoalAt(loop, p, goals, i);
      PositionIsUnique(q.ids, i);
    }
  }

  lemma SameStartKeepsPlan(loop: Str, p: Plan, q: Plan, goals: map<Str, Goal>)
    requires PlanInv(loop, p, goals) && SameStart(p, q) && NoRepeats(q.ids)
    ensures PlanInv(loop, q, goals)
  {
    forall i | 0 <= i <= p.activeIndex ensures GoalRefAt(loop, q, i) == GoalRefAt(loop, p, i) {}
    forall i | 0 <= i <= p.activeIndex ensures GoalAt(loop, q, goals, i) {
      assert GoalAt(loop, p, goals, i);
    }
  }

  /** An accepted revision keeps every goal record: it only permutes what is not materialised. */
  lemma ReviseKeepsPlan(s: Snapshot, ids: seq<Str>, slices: seq<Str>, index: Str, revision: int, reason: string, t: Reduced)
    requires SnapshotPlanInv(s) && AfterRevise(s, ids, slices, index, revision, reason) == Ok(t)
    ensures t.snapshot.goals == s.goals
    ensures SnapshotPlanInv(t.snapshot) && GoalsAdvance(s, t.snapshot)
  {
    ReviseDelta(s, ids, slices, index, revision, reason, t);
    hide ValidRevision, PlanInv, SameStart, NoRepeats, Reordered, GoalsAdvance;
    assert t.snapshot.goals == Reordered(s.goals, ids);
    hide AfterRevise;
    RevisionKeepsStart(s.plan, t.snapshot.plan, reason);
    ReorderKeepsGoals(s.loopRef, s.plan, t.snapshot.plan, s.goals);
    SameStartKeepsPlan(s.loopRef, s.plan, t.snapshot.plan, s.goals);
    SameGoalsAdvance(s, t.snapshot);
  }

  lemma CurrentIsAt(loop: Str, p: Plan, goals: map<Str, Goal>)
    requires PlanInv(loop, p, goals)
    ensures p.activeGoalRef in goals && 0 <= p.activeIndex && p.activeIndex + 1 <= p.goalCount == |p.ids|
    ensures var g := goals[p.activeGoalRef];
            && g.chain.goalRef == p.activeGoalRef
            && (Passed(g) ==> p.activeIndex + 1 == p.goalCount) && (g.state == Skipped ==> g.requirement == Optional)
  {
    assert GoalAt(loop, p, goals, p.activeIndex);
  }

  /** Moving the active goal to a final state that leaves the plan where it is. */
  lemma SettleKeeps(loop: Str, p: Plan, goals: map<Str, Goal>, g: Goal)
    requires PlanInv(loop, p, goals) && p.activeGoalRef in goals
    requires g == goals[p.activeGoalRef].(state := g.state, revision := g.revision, chain := g.chain)
    requires g.chain.goalRef == p.activeGoalRef
    requires g.state == Skipped ==> g.requirement == Optional
    requires Passed(g) ==> p.activeIndex + 1 == p.goalCount
    ensures PlanInv(loop, p, goals[p.activeGoalRef := g])
  {
    var settled := goals[p.activeGoalRef := g];
    forall i | 0 <= i <= p.activeIndex ensures GoalAt(loop, p, settled, i) {
      assert GoalAt(loop, p, goals, i);
      assert i < p.activeIndex ==> p.ids[i] != p.ids[p.activeIndex];
    }
  }

  lemma MaterializeKeeps(loop: Str, p: Plan, goals: map<Str, Goal>, done: Goal, next: Goal)
    requires PlanInv(loop, p, goals) && p.activeGoalRef in goals
    requires p.activeIndex + 1 < p.goalCount
    requires done == goals[p.activeGoalRef].(state := done.state, revision := done.revision)
    requires Passed(done) && (done.state == Skipped ==> done.requirement == Optional)
    requires var i := p.activeIndex + 1;
             && next.order == i && next.goalId == p.ids[i] && next.slice == p.slices[i]
             && next.dependsOn == Some(p.activeGoalRef) && next.chain.goalRef == GoalRefAt(loop, p, i)
             && 1 <= next.maxAttempts <= 3 && next.state == Active
    ensures var i := p.activeIndex + 1; var ref := GoalRefAt(loop, p, i);
            PlanInv(loop, p.(activeGoalRef := ref, activeIndex := i), goals[p.activeGoalRef := done][ref := next])
  {
    var k := p.activeIndex;
    var ref := GoalRefAt(loop, p, k + 1);
    var moved := goals[p.activeGoalRef := done][ref := next];
    var q := p.(activeGoalRef := ref, activeIndex := k + 1);
    forall i | 0 <= i < |p.ids| ensures GoalRefAt(loop, q, i) == GoalRefAt(loop, p, i) {}
    forall i | 0 <= i <= k + 1 ensures GoalAt(loop, q, moved, i) {
      if i <= k {
        assert GoalAt(loop, p, goals, i);
        assert p.ids[i] != p.ids[k + 1];
        assert i < k ==> p.ids[i] != p.ids[k];
      }
    }
  }

  /** Replacing the record of an active goal keeps what is fixed about it and every other goal. */
  lemma ReplaceAdvances(s: Snapshot, u: Snapshot, ref: Str, g: Goal)
    requires ref in s.goals && s.goals[ref].state == Active
    requires g == s.goals[ref].(state := g.state, revision := g.revision, chain := g.chain)
    requires u.loopRef == s.loopRef && u.plan == s.plan && u.goals == s.goals[ref := g]
    ensures GoalsAdvance(s, u)
  {
    assert forall k :: k in s.goals && k != ref ==> u.goals[k] == s.goals[k];
  }

  lemma SettlePlan(s: Snapshot, u: Snapshot, to: GoalState)
    requires SnapshotPlanInv(s) && s.plan.activeGoalRef in s.goals
    requires s.goals[s.plan.activeGoalRef].state == Active && to != Active
    requires to == Skipped ==> s.goals[s.plan.activeGoalRef].requirement == Optional
    requires to in {Done, Skipped} ==> s.plan.activeIndex + 1 == |s.plan.ids|
    requires u.loopRef == s.loopRef && u.plan == s.plan
    requires u.goals == s.goals[s.plan.activeGoalRef := Moved(s, s.plan.activeGoalRef, to)]
    ensures SnapshotPlanInv(u) && GoalsAdvance(s, u)
  {
    hide PlanInv, GoalsAdvance;
    var g := Moved(s, s.plan.activeGoalRef, to);
    CurrentIsAt(s.loopRef, s.plan, s.goals);
    SettleKeeps(s.loopRef, s.plan, s.goals, g);
    ReplaceAdvances(s, u, s.plan.activeGoalRef, g);
  }

  lemma MaterializePlan(s: Snapshot, u: Snapshot, to: GoalState)
    requires SnapshotPlanInv(s) && s.plan.activeGoalRef in s.goals
    requires to in {Done, Skipped}
    requires to == Skipped ==> s.goals[s.plan.activeGoalRef].requirement == Optional
    requires MaterializesGoal(s, u, s.plan.activeGoalRef, to)
    ensures SnapshotPlanInv(u)
  {
    hide Launches;
    var next := u.goals[u.plan.activeGoalRef];
    MaterializeKeeps(s.loopRef, s.plan, s.goals, Moved(s, s.plan.activeGoalRef, to), next);
    hide PlanInv;
  }

  lemma MaterializeAdvances(s: Snapshot, u: Snapshot, from: Str, to: GoalState)
    requires from in s.goals && s.goals[from].state == Active
    requires MaterializesGoal(s, u, from, to)
    ensures GoalsAdvance(s, u)
    ensures from in u.goals && u.goals[from].state == to
  {
    hide Launches, NextInLine;
  }

  lemma AdvanceKeepsPlan(s: Snapshot, r: Request, to: GoalState, t: Reduced)
    requires SnapshotPlanInv(s) && AfterAdvance(s, r, to) == Ok(t)
    ensures SnapshotPlanInv(t.snapshot) && GoalsAdvance(s, t.snapshot)
    ensures r.subject == s.plan.activeGoalRef && s.goals[r.subject].state == Active
    ensures r.subject in t.snapshot.goals && t.snapshot.goals[r.subject].state == to != Active
  {
    AdvanceGuards(s, r, to, t);
    AdvanceSettles(s, r, to, t);
    AdvanceIsFinal(s, r, to, t);
    hide AfterAdvance, Settle, GoalsAdvance, PlanInv, JustifiesAdvance;
    SettlingKeepsPlan(s, r, to, t);
  }

  lemma AdvanceIsFinal(s: Snapshot, r: Request, to: GoalState, t: Reduced)
    requires AfterAdvance(s, r, to) == Ok(t)
    ensures to != Active
  {
    hide Settle;
  }

  /** Settling the active goal, whatever justified it, keeps the plan. */
  lemma SettlingKeepsPlan(s: Snapshot, r: Request, to: GoalState, t: Reduced)
    requires SnapshotPlanInv(s) && r.subject in s.goals && s.goals[r.subject].state == Active && to != Active
    requires to == Skipped ==> s.goals[r.subject].requirement == Optional
    requires Settle(s, r, to) == Ok(t)
    ensures SnapshotPlanInv(t.snapshot) && GoalsAdvance(s, t.snapshot)
    ensures r.subject == s.plan.activeGoalRef
    ensures r.subject in t.snapshot.goals && t.snapshot.goals[r.subject].state == to
  {
    SettleDelta(s, r, to, t);
    hide Settle, MaterializesGoal, GoalsAdvance;
    ActiveIsCurrent(s.loopRef, s.plan, s.goals);
    assert r.subject in ActiveGoals(s.goals);
    if LeavesPlan(s, to) {
      SettlePlan(s, t.snapshot, to);
    } else {
      MaterializePlan(s, t.snapshot, to);
      MaterializeAdvances(s, t.snapshot, r.subject, to);
    }
  }

  lemma StopKeepsPlan(s: Snapshot, reason: string, t: Reduced)
    requires SnapshotPlanInv(s) && AfterStop(s, reason) == Ok(t)
    ensures SnapshotPlanInv(t.snapshot) && GoalsAdvance(s, t.snapshot)
    ensures s.goals[s.plan.activeGoalRef].state == Active && t.snapshot.goals[s.plan.activeGoalRef].state == Halted
  {
    hide PlanInv, GoalsAdvance, ValidReason;
    ActiveIsCurrent(s.loopRef, s.plan, s.goals);
    var u := t.snapshot;
    assert s.plan.activeGoalRef in ActiveGoals(s.goals);
    assert u.goals == s.goals[s.plan.activeGoalRef := Moved(s, s.plan.activeGoalRef, Halted)];
    assert u.plan == s.plan && u.loopRef == s.loopRef;
    hide AfterStop;
    SettlePlan(s, u, Halted);
  }

  lemma RepairKeepsPlan(s: Snapshot, u: Snapshot, ordinal: nat)
    requires SnapshotPlanInv(s) && s.goals[s.plan.activeGoalRef].state == Active
    requires SchedulesRepair(s, u, s.plan.activeGoalRef, ordinal)
    ensures SnapshotPlanInv(u) && GoalsAdvance(s, u)
  {
    hide Launches, PlanInv, GoalsAdvance;
    CurrentIsAt(s.loopRef, s.plan, s.goals);
    SettleKeeps(s.loopRef, s.plan, s.goals, u.goals[s.plan.activeGoalRef]);
    ReplaceAdvances(s, u, s.plan.activeGoalRef, u.goals[s.plan.activeGoalRef]);
  }

  lemma DecisionKeepsPlan(s: Snapshot, r: Request, ctx: Context, d: Decision, fingerprint: string, t: Reduced)
    requires SnapshotPlanInv(s) && AfterDecision(s, r, ctx, d, fingerprint) == Ok(t)
    ensures SnapshotPlanInv(t.snapshot) && GoalsAdvance(s, t.snapshot)
  {
    DecisionDelta(s, r, ctx, d, fingerprint, t);
    hide AfterDecision, SchedulesRepair, PlanInv, GoalsAdvance;
    ActiveIsCurrent(s.loopRef, s.plan, s.goals);
    if DecidesOnly(s, t.snapshot) {
      SameGoalsAdvance(s, t.snapshot);
    } else {
      assert s.plan.activeGoalRef in ActiveGoals(s.goals);
      RepairKeepsPlan(s, t.snapshot, t.snapshot.policy.value.repairAttempts);
    }
  }
}
