/** The subjects a plan-selector grant covers, over the life of a loop. */
module PlanAuthority {
  import opened Base
  import opened Records
  import opened Commands
  import opened Authority
  import opened Permissions
  import opened Kernel
  import opened Transitions
  import opened PlanProgress
  import opened EffectCoupling
  import opened ResultBinding
  import opened ClosureBacking
  import opened Invariant
  import opened Runs
  import opened Safety

  // The selector check -----------------------------------------------------------------------------------------

  /** The loop over the planned goals, up to the first match. */
  method MatchesPlanned(p: Plan, loop: Str, kind: Kind, subject: Str) returns (matched: bool)
    requires |p.ids| == |p.slices|
    ensures matched <==> subject in PlannedSubjects(p, loop, kind)
  {
    var index := 0;
    while index < |p.ids|
      invariant 0 <= index <= |p.ids|
      invariant PlanDerivable(kind) ==> forall i :: 0 <= i < index ==> subject != PlannedRef(p, loop, kind, i)
    {
      if PlanDerivable(kind) && subject == PlannedRef(p, loop, kind, index) { return true; }
      index := index + 1;
    }
    matched := false;
  }

  /** The loop over the repair ordinals of one goal. */
  method MatchesOrdinal(p: Plan, loop: Str, kind: Kind, g: Str, goal: Goal, subject: Str) returns (matched: bool)
    ensures matched <==> exists n :: 1 <= n < goal.maxAttempts
                                     && subject == RepairRef(kind, RepairIdentity(loop, p.planDigest, g, goal.goalId, n))
  {
    var n := 1;
    while n < goal.maxAttempts
      invariant 1 <= n && forall m :: 1 <= m < n ==>
                            subject != RepairRef(kind, RepairIdentity(loop, p.planDigest, g, goal.goalId, m))
      decreases goal.maxAttempts - n
    {
      if subject == RepairRef(kind, RepairIdentity(loop, p.planDigest, g, goal.goalId, n)) { return true; }
      n := n + 1;
    }
    matched := false;
  }

  /** The loop over the materialised goals. */
  method MatchesRepair(p: Plan, loop: Str, goals: map<Str, Goal>, kind: Kind, subject: Str) returns (matched: bool)
    ensures matched <==> subject in RepairSubjects(p, loop, goals, kind)
  {
    if p.capacity != CapacityV2 || !RepairDerivable(kind) { return false; }
    var rest := goals.Keys;
    while rest != {}
      invariant rest <= goals.Keys
      invariant forall g, n :: g in goals && g !in rest && 1 <= n < goals[g].maxAttempts ==>
                  subject != RepairRef(kind, RepairIdentity(loop, p.planDigest, g, goals[g].goalId, n))
      decreases |rest|
    {
      var g :| g in rest;
      var found := MatchesOrdinal(p, loop, kind, g, goals[g], subject);
      if found { return true; }
      rest := rest - {g};
    }
    matched := false;
  }

  /** `_validate_plan_selector` for an existing loop: with an intact plan, what the selector selects passes and nothing
      else does. */
  method ValidatePlanSelector(planDigest: Str, indexMax: int, includeLoop: bool, r: Request, s: Snapshot)
    returns (check: Check)
    ensures check == CheckSelector(planDigest, indexMax, includeLoop, r, s)
    ensures SnapshotPlanInv(s) ==>
              check == if planDigest == s.plan.planDigest && indexMax + 1 == s.plan.goalCount
                          && Selected(s, r.loop, r.kind, r.subject, includeLoop)
                       then Pass else Refuse(AuthorityScopeMismatch)
  {
    if SnapshotPlanInv(s) { SelectorExactly(planDigest, indexMax, includeLoop, r, s); }
    hide SnapshotPlanInv, Selected;
    var refuse := Check.Stop(Rejected(AuthorityScopeMismatch));
    if s.plan.planDigest != planDigest || s.plan.goalCount != indexMax + 1 { return refuse; }
    if r.kind == LoopRef { return if includeLoop && r.subject == r.loop then Pass else refuse; }
    if r.kind == FinalizationRef {
      return if includeLoop && r.subject == LoopFinalRef(r.loop, s.plan.planDigest) then Pass else refuse;
    }
    if |s.plan.ids| != |s.plan.slices| || |s.plan.ids| != s.plan.goalCount {
      return Check.Stop(Rejected(InternalInvariantViolation));
    }
    var matched := MatchesPlanned(s.plan, r.loop, r.kind, r.subject);
    if !matched { matched := MatchesRepair(s.plan, r.loop, s.goals, r.kind, r.subject); }
    check := if matched then Pass else refuse;
  }

  /** The selector of this plan admits, besides loop and finalization, exactly the subjects in the envelope. */
  lemma EnvelopeIsChecked(r: Request, s: Snapshot, includeLoop: bool)
    requires SnapshotPlanInv(s) && r.loop == s.loopRef && r.kind !in {LoopRef, FinalizationRef}
    ensures CheckSelector(s.plan.planDigest, s.plan.goalCount - 1, includeLoop, r, s) == Pass
            <==> r.subject in Envelope(s, r.kind)
  {
    SelectorExactly(s.plan.planDigest, s.plan.goalCount - 1, includeLoop, r, s);
    PlannedExactly(s.plan, r.loop, r.kind, r.subject);
    RepairExactly(s.plan, s.goals, r.loop, r.kind, r.subject);
    hide CheckSelector, PlannedSubjects, RepairSubjects, OfPlannedGoal, OfRepair, SnapshotPlanInv;
  }

  // The envelope over time -------------------------------------------------------------------------------------

  /** What the plan half of the envelope depends on: which id carries which slice, in any order. */
  function PairedSubjects(pairing: map<Str, Str>, planDigest: Str, loop: Str, kind: Kind): set<Str> {
    if PlanDerivable(kind) then set k | k in pairing :: PlanRef(kind, GoalIdentity(loop, planDigest, k, pairing[k])) else {}
  }

  lemma PlannedIsPaired(p: Plan, loop: Str, kind: Kind, i: int)
    requires PlanShape(p) && 0 <= i < |p.ids| && PlanDerivable(kind)
    ensures PlannedRef(p, loop, kind, i) in PairedSubjects(Pairing(p.ids, p.slices), p.planDigest, loop, kind)
  {
    PairingLookup(p.ids, p.slices, i);
    hide Pairing, NoRepeats;
  }

  lemma PairedIsPlanned(p: Plan, loop: Str, kind: Kind, k: Str)
    requires PlanShape(p) && k in Pairing(p.ids, p.slices) && PlanDerivable(kind)
    ensures PlanRef(kind, GoalIdentity(loop, p.planDigest, k, Pairing(p.ids, p.slices)[k])) in PlannedSubjects(p, loop, kind)
  {
    PairingKeys(p.ids, p.slices);
    var i :| 0 <= i < |p.ids| && p.ids[i] == k;
    PairingLookup(p.ids, p.slices, i);
    hide Pairing, NoRepeats;
    assert PlannedRef(p, loop, kind, i) in PlannedSubjects(p, loop, kind);
  }

  lemma PlannedArePaired(p: Plan, loop: Str, kind: Kind)
    requires PlanShape(p)
    ensures PlannedSubjects(p, loop, kind) == PairedSubjects(Pairing(p.ids, p.slices), p.planDigest, loop, kind)
  {
    hide Pairing, PlanShape, NoRepeats;
    if PlanDerivable(kind) && |p.ids| == |p.slices| {
      forall i | 0 <= i < |p.ids|
        ensures PlannedRef(p, loop, kind, i) in PairedSubjects(Pairing(p.ids, p.slices), p.planDigest, loop, kind)
      {
        PlannedIsPaired(p, loop, kind, i);
      }
      forall k | k in Pairing(p.ids, p.slices)
        ensures PlanRef(kind, GoalIdentity(loop, p.planDigest, k, Pairing(p.ids, p.slices)[k])) in PlannedSubjects(p, loop, kind)
      {
        PairedIsPlanned(p, loop, kind, k);
      }
    }
    SameLengths(p);
  }

  lemma SameLengths(p: Plan)
    requires PlanShape(p)
    ensures |p.ids| == |p.slices|
  {
    hide NoRepeats;
  }

  /** The repair references of the goals a command materialised. */
  function NewRepairs(s: Snapshot, t: Snapshot, kind: Kind): set<Str> {
    RepairSubjects(t.plan, t.loopRef, map g | g in t.goals && g !in s.goals :: t.goals[g], kind)
  }

  lemma PlannedAreKept(s: Snapshot, t: Snapshot, kind: Kind)
    requires PlanShape(s.plan) && PlanShape(t.plan) && PlanKept(s.plan, t.plan) && t.loopRef == s.loopRef
    ensures PlannedSubjects(t.plan, t.loopRef, kind) == PlannedSubjects(s.plan, s.loopRef, kind)
  {
    PlannedArePaired(s.plan, s.loopRef, kind);
    PlannedArePaired(t.plan, t.loopRef, kind);
    hide PlannedSubjects, Pairing, PlanShape;
  }

  lemma RepairIsKept(s: Snapshot, t: Snapshot, kind: Kind, g: Str, n: nat)
    requires GoalsAdvance(s, t) && t.plan.capacity == s.plan.capacity == CapacityV2 && RepairDerivable(kind)
    requires g in t.goals && 1 <= n < t.goals[g].maxAttempts
    ensures var ref := RepairRef(kind, RepairIdentity(t.loopRef, t.plan.planDigest, g, t.goals[g].goalId, n));
            ref in RepairSubjects(s.plan, s.loopRef, s.goals, kind) + NewRepairs(s, t, kind)
  {
    if g in s.goals {
      assert t.goals[g].maxAttempts == s.goals[g].maxAttempts && t.goals[g].goalId == s.goals[g].goalId;
    } else {
      var added := map h | h in t.goals && h !in s.goals :: t.goals[h];
      assert g in added && added[g] == t.goals[g];
    }
  }

  lemma KeptIsRepair(s: Snapshot, t: Snapshot, kind: Kind, g: Str, n: nat)
    requires GoalsAdvance(s, t) && t.plan.capacity == s.plan.capacity == CapacityV2 && RepairDerivable(kind)
    requires g in s.goals && 1 <= n < s.goals[g].maxAttempts
    ensures RepairRef(kind, RepairIdentity(s.loopRef, s.plan.planDigest, g, s.goals[g].goalId, n))
            in RepairSubjects(t.plan, t.loopRef, t.goals, kind)
  {
    assert t.goals[g].maxAttempts == s.goals[g].maxAttempts && t.goals[g].goalId == s.goals[g].goalId;
  }

  lemma RepairsAreKept(s: Snapshot, t: Snapshot, kind: Kind)
    requires GoalsAdvance(s, t) && t.plan.capacity == s.plan.capacity
    ensures RepairSubjects(t.plan, t.loopRef, t.goals, kind)
            == RepairSubjects(s.plan, s.loopRef, s.goals, kind) + NewRepairs(s, t, kind)
  {
    if RepairDerivable(kind) && t.plan.capacity == CapacityV2 {
      forall g, n: nat | g in t.goals && 1 <= n < t.goals[g].maxAttempts
        ensures RepairRef(kind, RepairIdentity(t.loopRef, t.plan.planDigest, g, t.goals[g].goalId, n))
                in RepairSubjects(s.plan, s.loopRef, s.goals, kind) + NewRepairs(s, t, kind)
      {
        RepairIsKept(s, t, kind, g, n);
      }
      forall g, n: nat | g in s.goals && 1 <= n < s.goals[g].maxAttempts
        ensures RepairRef(kind, RepairIdentity(s.loopRef, s.plan.planDigest, g, s.goals[g].goalId, n))
                in RepairSubjects(t.plan, t.loopRef, t.goals, kind)
      {
        KeptIsRepair(s, t, kind, g, n);
      }
    }
    hide GoalsAdvance, RepairDerivable;
  }

  /** An accepted command never takes a subject out of the envelope, and only puts in the repair references of the goals
      it materialises. */
  lemma EnvelopeGrows(s: Snapshot, i: Input, t: Reduced, kind: Kind)
    requires Inv(s) && Commit(Some(s), i) == Ok(t)
    ensures Envelope(t.snapshot, kind) == Envelope(s, kind) + NewRepairs(s, t.snapshot, kind)
  {
    hide Commit, PlannedSubjects, RepairSubjects, NewRepairs, Pairing, CoupledInv, BoundInv, EndingInv, PolicyInv,
         ObservedForwards, BudgetForwards, AttemptsConserved, RepairsCounted, GoalAt;
    CommitForwards(s, i, t);
    PlannedAreKept(s, t.snapshot, kind);
    RepairsAreKept(s, t.snapshot, kind);
  }

  /** An accepted revision leaves the envelope exactly as it was. */
  lemma RevisionKeepsEnvelope(s: Snapshot, i: Input, t: Reduced, kind: Kind)
    requires Inv(s) && Commit(Some(s), i) == Ok(t) && i.command.request.payload.Revise?
    ensures Envelope(t.snapshot, kind) == Envelope(s, kind) && t.snapshot.goals == s.goals
  {
    hide Commit, SnapshotPlanInv, CoupledInv, BoundInv, EndingInv, PolicyInv, Envelope, NewRepairs;
    EnvelopeGrows(s, i, t, kind);
    RevisionKeepsGoals(s, i, t);
    NoNewRepairs(s, t.snapshot, kind);
  }

  lemma NoNewRepairs(s: Snapshot, t: Snapshot, kind: Kind)
    requires t.goals == s.goals
    ensures NewRepairs(s, t, kind) == {}
  {
    var none := map g | g in t.goals && g !in s.goals :: t.goals[g];
    assert none == map[];
  }

  lemma RevisionKeepsGoals(s: Snapshot, i: Input, t: Reduced)
    requires SnapshotPlanInv(s) && Commit(Some(s), i) == Ok(t) && i.command.request.payload.Revise?
    ensures t.snapshot.goals == s.goals
  {
    var r := i.command.request;
    var p := r.payload;
    hide ValidateCommand, ValidateAuthority, ValidateReferences, Fits, AfterRevise, PlanInv;
    var d := AfterRevise(s, p.ids, p.slices, p.indexDigest, p.revision, p.reason).value;
    ReviseKeepsPlan(s, p.ids, p.slices, p.indexDigest, p.revision, p.reason, d);
  }

  /** Over any run the envelope only grows. */
  lemma {:induction false} EnvelopeNeverShrinks(run: seq<Input>, k: nat, kind: Kind)
    requires k <= |run| && After(run[..k]).Some?
    ensures After(run).Some? && Envelope(After(run[..k]).value, kind) <= Envelope(After(run).value, kind)
  {
    hide Commit, Inv, Envelope, Fits;
    if k == |run| {
      assert run[..k] == run;
    } else {
      var front, last := run[..|run| - 1], run[|run| - 1];
      assert front[..k] == run[..k];
      EnvelopeNeverShrinks(front, k, kind);
      LastCommand(run);
      if Commit(After(front), last).Ok? {
        ReachableInv(front);
        EnvelopeGrows(After(front).value, last, Commit(After(front), last).value, kind);
      }
    }
  }

  /** The references of a scheduled repair lie in the envelope exactly when its ordinal is below the goal's attempts:
      scheduling itself does not compare them. */
  lemma ScheduledInEnvelope(s: Snapshot, u: Snapshot, goalRef: Str, ordinal: nat, kind: Kind)
    requires SchedulesRepair(s, u, goalRef, ordinal) && 1 <= ordinal && RepairDerivable(kind)
    ensures var id := RepairIdentity(s.loopRef, s.plan.planDigest, goalRef, s.goals[goalRef].goalId, ordinal);
            RepairRef(kind, id) in Envelope(u, kind)
            <==> s.plan.capacity == CapacityV2 && ordinal < s.goals[goalRef].maxAttempts
  {
    hide Launches;
    var id := RepairIdentity(s.loopRef, s.plan.planDigest, goalRef, s.goals[goalRef].goalId, ordinal);
    assert u.goals[goalRef].maxAttempts == s.goals[goalRef].maxAttempts && u.goals[goalRef].goalId == s.goals[goalRef].goalId;
    assert RepairRef(kind, id) !in PlannedSubjects(u.plan, u.loopRef, kind);
  }
}
