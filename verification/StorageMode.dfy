/** Which reducer route a persisted snapshot selects, and that a loop keeps its route for life.

    `Stored` is the part of a persisted snapshot that classification reads, with the key-set and type checks of the
    program folded into its constructors: a goal or plan that carries exactly (or at least) the keys of a layout is
    the constructor of that layout, anything else is `OtherGoal` or `OtherPlan`. */
module StorageMode {
  import opened Base
  import opened Records
  import opened Commands
  import opened Authority
  import opened Kernel
  import opened Transitions
  import opened PlanProgress
  import opened EffectCoupling
  import opened ResultBinding
  import opened ClosureBacking
  import opened Invariant
  import opened Runs
  import opened Safety

  datatype Mode = ContentMode | EagerMode | LegacyAbsentMode | MalformedMode

  datatype StoredGoal =
    | ContentGoal(goalId: Str, slice: Str, order: int, chainGoal: Option<Str>)
    | EagerGoal(order: int, chainGoal: Option<Str>)
    | LegacyGoal
    | OtherGoal

  datatype StoredPlan =
    | ContentPlan(active: Str, activeIndex: int, goalCount: int, ids: seq<Str>, slices: seq<Str>)
    | EagerPlan(active: Str, refs: seq<Str>)
    | OtherPlan

  /** `sound` says that the sections are those of a snapshot and have the right types. */
  datatype Stored = Stored(
    sound: bool, loop: Str, revision: int, current: Option<Str>, goals: map<Str, StoredGoal>, plan: Option<StoredPlan>)

  // What each mode means ---------------------------------------------------------------------------------------

  predicate Common(s: Stored) {
    s.sound && Truthy(s.loop) && s.revision >= 1 && (s.current.Some? ==> Truthy(s.current.value))
  }

  predicate AllTruthy(names: seq<Str>) { forall i :: 0 <= i < |names| ==> Truthy(names[i]) }

  predicate ContentIndex(p: StoredPlan, goals: map<Str, StoredGoal>) {
    && p.ContentPlan? && 0 <= p.activeIndex < p.goalCount
    && |p.ids| == p.goalCount && |p.slices| == p.goalCount
    && AllTruthy(p.ids) && AllTruthy(p.slices) && Distinct(p.ids)
    && |goals| == p.activeIndex + 1
  }

  /** The goal stands in the plan where its order says, under its own reference. */
  predicate InPlace(p: StoredPlan, goals: map<Str, StoredGoal>, g: Str)
    requires ContentIndex(p, goals) && g in goals
  {
    var goal := goals[g];
    && goal.ContentGoal? && goal.chainGoal == Some(g)
    && 0 <= goal.order <= p.activeIndex
    && goal.goalId == p.ids[goal.order] && goal.slice == p.slices[goal.order]
  }

  predicate HasOrder(goals: map<Str, StoredGoal>, i: int) {
    exists g :: g in goals && goals[g].ContentGoal? && goals[g].order == i
  }

  predicate ContentShaped(p: StoredPlan, goals: map<Str, StoredGoal>) {
    && ContentIndex(p, goals)
    && (forall g :: g in goals ==> InPlace(p, goals, g))
    && (forall g, h :: g in goals && h in goals && g != h ==> goals[g].order != goals[h].order)
    && (forall i :: 0 <= i <= p.activeIndex ==> HasOrder(goals, i))
    && p.active in goals && goals[p.active].order == p.activeIndex
  }

  predicate EagerShaped(p: StoredPlan, goals: map<Str, StoredGoal>) {
    && p.EagerPlan? && |p.refs| >= 2 && AllTruthy(p.refs) && Distinct(p.refs)
    && Elements(p.refs) == goals.Keys && p.active in p.refs
    && (forall i :: 0 <= i < |p.refs| ==> EagerAt(goals, p.refs, i))
  }

  predicate EagerAt(goals: map<Str, StoredGoal>, refs: seq<Str>, i: int)
    requires 0 <= i < |refs|
  {
    refs[i] in goals && goals[refs[i]] == EagerGoal(i, Some(refs[i]))
  }

  predicate LegacyShaped(goals: map<Str, StoredGoal>) { |goals| == 1 && forall g :: g in goals ==> goals[g].LegacyGoal? }

  function ModeOf(stored: Option<Stored>): Mode {
    if stored.None? then ContentMode
    else
      var s := stored.value;
      if !Common(s) then MalformedMode
      else if s.plan.None? then if LegacyShaped(s.goals) then LegacyAbsentMode else MalformedMode
      else if ContentShaped(s.plan.value, s.goals) then ContentMode
      else if EagerShaped(s.plan.value, s.goals) then EagerMode
      else MalformedMode
  }

  // The classifier ---------------------------------------------------------------------------------------------

  /** The loop that files goals by their order, refusing a goal out of shape or a second one of the same order. */
  method FileByOrder(goals: map<Str, StoredGoal>) returns (sound: bool, byOrder: map<int, Str>)
    ensures sound <==> && (forall g :: g in goals ==> goals[g].ContentGoal? && goals[g].chainGoal == Some(g))
                       && (forall g, h :: g in goals && h in goals && g != h ==> goals[g].order != goals[h].order)
    ensures sound ==> (forall g :: g in goals ==> goals[g].order in byOrder && byOrder[goals[g].order] == g)
                      && (forall o :: o in byOrder ==> byOrder[o] in goals && goals[byOrder[o]].order == o)
  {
    byOrder := map[];
    var rest := goals.Keys;
    while rest != {}
      invariant rest <= goals.Keys
      invariant forall g :: g in goals && g !in rest ==>
                  && goals[g].ContentGoal? && goals[g].chainGoal == Some(g)
                  && goals[g].order in byOrder && byOrder[goals[g].order] == g
      invariant forall o :: o in byOrder ==> byOrder[o] in goals && byOrder[o] !in rest && goals[byOrder[o]].order == o
      decreases |rest|
    {
      var g :| g in rest;
      if !goals[g].ContentGoal? || goals[g].chainGoal != Some(g) || goals[g].order in byOrder {
        sound := false;
        return;
      }
      byOrder := byOrder[goals[g].order := g];
      rest := rest - {g};
    }
    sound := true;
  }

  /** `range(n)`, as a set. */
  function Range(n: nat): (r: set<int>)
    ensures forall i :: i in r <==> 0 <= i < n
  {
    if n == 0 then {} else Range(n - 1) + {n - 1}
  }

  method ClassifyContent(p: StoredPlan, goals: map<Str, StoredGoal>) returns (fits: bool)
    ensures fits <==> ContentShaped(p, goals)
  {
    if !ContentIndex(p, goals) { return false; }
    var sound, byOrder := FileByOrder(goals);
    if !sound { return false; }
    if byOrder.Keys != Range(p.activeIndex + 1) {
      if ContentShaped(p, goals) { OrdersCover(p, goals, byOrder); }
      return false;
    }
    var index := 0;
    while index <= p.activeIndex
      invariant 0 <= index <= p.activeIndex + 1
      invariant forall i :: 0 <= i < index ==>
                  goals[byOrder[i]].goalId == p.ids[i] && goals[byOrder[i]].slice == p.slices[i]
    {
      var goal := goals[byOrder[index]];
      if goal.goalId != p.ids[index] || goal.slice != p.slices[index] {
        assert !InPlace(p, goals, byOrder[index]);
        return false;
      }
      index := index + 1;
    }
    forall g | g in goals ensures InPlace(p, goals, g) {
      assert goals[g].order in byOrder.Keys;
    }
    forall i | 0 <= i <= p.activeIndex ensures HasOrder(goals, i) {
      assert goals[byOrder[i]].order == i;
    }
    fits := p.active == byOrder[p.activeIndex];
  }

  lemma OrdersCover(p: StoredPlan, goals: map<Str, StoredGoal>, byOrder: map<int, Str>)
    requires ContentShaped(p, goals)
    requires forall g :: g in goals ==> goals[g].ContentGoal? && goals[g].order in byOrder && byOrder[goals[g].order] == g
    requires forall o :: o in byOrder ==> byOrder[o] in goals && goals[byOrder[o]].order == o
    ensures byOrder.Keys == Range(p.activeIndex + 1)
  {
    forall i | 0 <= i <= p.activeIndex ensures i in byOrder { assert HasOrder(goals, i); }
    forall o | o in byOrder ensures 0 <= o <= p.activeIndex { assert InPlace(p, goals, byOrder[o]); }
  }

  method ClassifyEager(p: StoredPlan, goals: map<Str, StoredGoal>) returns (fits: bool)
    ensures fits <==> EagerShaped(p, goals)
  {
    if !(p.EagerPlan? && |p.refs| >= 2 && AllTruthy(p.refs) && Distinct(p.refs)
         && Elements(p.refs) == goals.Keys && p.active in p.refs) {
      return false;
    }
    for index := 0 to |p.refs|
      invariant forall i :: 0 <= i < index ==> EagerAt(goals, p.refs, i)
    {
      if goals[p.refs[index]] != EagerGoal(index, Some(p.refs[index])) {
        assert !EagerAt(goals, p.refs, index);
        return false;
      }
    }
    fits := true;
  }

  /** `classify_persisted_storage_mode` */
  method Classify(stored: Option<Stored>) returns (mode: Mode)
    ensures mode == ModeOf(stored)
  {
    if stored.None? { return ContentMode; }
    var s := stored.value;
    if !Common(s) { return MalformedMode; }
    if s.plan.None? {
      mode := if LegacyShaped(s.goals) then LegacyAbsentMode else MalformedMode;
    } else if s.plan.value.ContentPlan? {
      var fits := ClassifyContent(s.plan.value, s.goals);
      mode := if fits then ContentMode else MalformedMode;
    } else {
      var fits := ClassifyEager(s.plan.value, s.goals);
      mode := if fits then EagerMode else MalformedMode;
    }
  }

  // Content-addressed loops ------------------------------------------------------------------------------------

  function StoredOf(s: Snapshot): Stored {
    Stored(true, s.loopRef, s.loopRevision, s.currentResult,
           map g | g in s.goals ::
             ContentGoal(s.goals[g].goalId, s.goals[g].slice, s.goals[g].order, Some(s.goals[g].chain.goalRef)),
           Some(ContentPlan(s.plan.activeGoalRef, s.plan.activeIndex, s.plan.goalCount, s.plan.ids, s.plan.slices)))
  }

  function RefsBelow(loop: Str, p: Plan, k: int): set<Str>
    requires 0 <= k <= |p.ids| && |p.slices| == |p.ids|
  {
    set i | 0 <= i < k :: GoalRefAt(loop, p, i)
  }

  lemma {:induction false} RefsBelowCount(loop: Str, p: Plan, k: int)
    requires 0 <= k <= |p.ids| && |p.slices| == |p.ids| && NoRepeats(p.ids)
    ensures |RefsBelow(loop, p, k)| == k
  {
    if k > 0 {
      RefsBelowCount(loop, p, k - 1);
      var last := GoalRefAt(loop, p, k - 1);
      assert RefsBelow(loop, p, k) == RefsBelow(loop, p, k - 1) + {last};
      assert last !in RefsBelow(loop, p, k - 1);
    }
  }

  /** There is exactly one goal per plan position up to the active one. */
  lemma GoalsAreCounted(s: Snapshot)
    requires SnapshotPlanInv(s)
    ensures |s.goals| == s.plan.activeIndex + 1
  {
    RefsBelowCount(s.loopRef, s.plan, s.plan.activeIndex + 1);
    forall i | 0 <= i <= s.plan.activeIndex ensures GoalRefAt(s.loopRef, s.plan, i) in s.goals {
      assert GoalAt(s.loopRef, s.plan, s.goals, i);
    }
    assert s.goals.Keys == RefsBelow(s.loopRef, s.plan, s.plan.activeIndex + 1);
    assert |s.goals.Keys| == |s.goals|;
  }

  lemma {:induction false} NoRepeatsMeansDistinct(ids: seq<Str>)
    requires NoRepeats(ids)
    ensures Distinct(ids)
  {
    assert Elements(ids) == set i | 0 <= i < |ids| :: ids[i];
    if ids != [] {
      var front, last := ids[..|ids| - 1], ids[|ids| - 1];
      NoRepeatsMeansDistinct(front);
      assert Elements(front) == set i | 0 <= i < |front| :: front[i];
      assert Elements(ids) == Elements(front) + {last};
      assert last !in Elements(front);
    }
  }

  lemma StoredGoalsAreCounted(s: Snapshot)
    ensures |StoredOf(s).goals| == |s.goals| && StoredOf(s).goals.Keys == s.goals.Keys
  {
    var goals := StoredOf(s).goals;
    assert goals.Keys == s.goals.Keys;
    assert |goals.Keys| == |goals| && |s.goals.Keys| == |s.goals|;
  }

  lemma IndexIsContent(s: Snapshot)
    requires SnapshotPlanInv(s) && AllTruthy(s.plan.ids) && AllTruthy(s.plan.slices)
    ensures ContentIndex(StoredOf(s).plan.value, StoredOf(s).goals)
  {
    hide GoalAt, AllTruthy, Distinct;
    StoredGoalsAreCounted(s);
    GoalsAreCounted(s);
    NoRepeatsMeansDistinct(s.plan.ids);
    hide NoRepeats;
  }

  lemma GoalIsInPlace(s: Snapshot, g: Str)
    requires SnapshotPlanInv(s) && ContentIndex(StoredOf(s).plan.value, StoredOf(s).goals) && g in s.goals
    ensures InPlace(StoredOf(s).plan.value, StoredOf(s).goals, g)
    ensures g == GoalRefAt(s.loopRef, s.plan, s.goals[g].order)
  {
    hide Distinct, AllTruthy;
    assert GoalAt(s.loopRef, s.plan, s.goals, s.goals[g].order);
  }

  lemma PositionIsFilled(s: Snapshot, i: int)
    requires SnapshotPlanInv(s) && 0 <= i <= s.plan.activeIndex
    ensures HasOrder(StoredOf(s).goals, i)
    ensures GoalRefAt(s.loopRef, s.plan, i) in s.goals && s.goals[GoalRefAt(s.loopRef, s.plan, i)].order == i
  {
    assert GoalAt(s.loopRef, s.plan, s.goals, i);
    assert StoredOf(s).goals[GoalRefAt(s.loopRef, s.plan, i)].order == i;
  }

  lemma PlanIsContentShaped(s: Snapshot)
    requires SnapshotPlanInv(s) && AllTruthy(s.plan.ids) && AllTruthy(s.plan.slices)
    ensures ContentShaped(StoredOf(s).plan.value, StoredOf(s).goals)
  {
    IndexIsContent(s);
    PositionIsFilled(s, s.plan.activeIndex);
    assert s.plan.activeGoalRef == GoalRefAt(s.loopRef, s.plan, s.plan.activeIndex);
    forall i | 0 <= i <= s.plan.activeIndex ensures HasOrder(StoredOf(s).goals, i) { PositionIsFilled(s, i); }
    forall g | g in s.goals
      ensures InPlace(StoredOf(s).plan.value, StoredOf(s).goals, g)
              && g == GoalRefAt(s.loopRef, s.plan, s.goals[g].order)
    {
      GoalIsInPlace(s, g);
    }
    hide PlanInv, ContentIndex, InPlace, HasOrder;
  }

  /** What creation establishes besides the invariant: a loop reference, and a digest for each planned id. */
  predicate Grounded(s: Snapshot) {
    && KindOf(s.loopRef) == Some(LoopRef) && s.loopRevision >= 1
    && (forall k :: k in Pairing(s.plan.ids, s.plan.slices) ==> Is64(Pairing(s.plan.ids, s.plan.slices)[k]))
  }

  predicate Named(s: Snapshot) { AllTruthy(s.plan.ids) && (s.currentResult.Some? ==> Truthy(s.currentResult.value)) }

  lemma SlicesAreDigests(p: Plan)
    requires PlanShape(p)
    requires forall k :: k in Pairing(p.ids, p.slices) ==> Is64(Pairing(p.ids, p.slices)[k])
    ensures forall i :: 0 <= i < |p.slices| ==> Is64(p.slices[i])
  {
    forall i | 0 <= i < |p.slices| ensures Is64(p.slices[i]) { PairingLookup(p.ids, p.slices, i); }
  }

  /** A snapshot that satisfies the invariant is classified CONTENT_ADDRESSED exactly when its planned ids and its
      current result are named, and MALFORMED otherwise. */
  lemma ContentExactly(s: Snapshot)
    requires SnapshotPlanInv(s) && Grounded(s)
    ensures ModeOf(Some(StoredOf(s))) == if Named(s) then ContentMode else MalformedMode
  {
    SlicesAreDigests(s.plan);
    if Named(s) { PlanIsContentShaped(s); }
  }

  // Every command keeps the route ------------------------------------------------------------------------------

  /** Only staging moves the current result. */
  lemma CurrentResultMoves(s: Snapshot, r: Request, ctx: Context, t: Reduced)
    requires Dispatch(s, r, ctx) == Ok(t)
    ensures r.payload.Stage? ==> NewResult in r.allocate && t.snapshot.currentResult == Some(r.allocate[NewResult])
    ensures !r.payload.Stage? ==> t.snapshot.currentResult == s.currentResult
  {
    hide AfterCreate, AfterObserve, AfterStage, AfterAcknowledge, AfterReview, AfterDecision, AfterAdvance, AfterPause,
         AfterResume, AfterRevise, AfterStop, AfterPrepare, AfterClose, AfterStrengthen;
    hide ObservesPair, StagesResult, AcknowledgesResult, RecordsReview, MaterializesGoal, CountsRepair, Defers, StopsLoop,
         PreparesFinalization, ClosesExecution, StrengthensClosure, ValidRevision, Quiet, LeavesPlan, Only, ActiveGoals;
    match r.payload
    case Create(c) => CreateRefused(s, r, ctx, c);
    case Observe => ObserveDelta(s, r, ctx, t);
    case Stage(outcome, summary) => StageNamesCurrent(s, r, outcome, summary, t);
    case Acknowledge => AcknowledgeDelta(s, r, ctx, t);
    case Judge(verdict) => ReviewDelta(s, r, verdict, t);
    case Decide(d, fingerprint) => DecisionKeepsCurrent(s, r, ctx, d, fingerprint, t);
    case Advance(to) => AdvanceKeepsCurrent(s, r, to, t);
    case Pause(reason, wait) => PauseDelta(s, reason, wait, t);
    case Resume(fields) => ResumeKeepsCurrent(s, fields, t);
    case Revise(ids, slices, index, revision, reason) => ReviseDelta(s, ids, slices, index, revision, reason, t);
    case StopNow(reason) => StopDelta(s, reason, t);
    case Prepare(d) => PrepareDelta(s, r, d, t);
    case Close => CloseDelta(s, r, ctx, t);
    case Strengthen => StrengthenDelta(s, r, ctx, t);
  }

  lemma StageNamesCurrent(s: Snapshot, r: Request, outcome: Outcome, summary: string, t: Reduced)
    requires AfterStage(s, r, outcome, summary) == Ok(t)
    ensures NewResult in r.allocate && t.snapshot.currentResult == Some(r.allocate[NewResult])
  {
    hide Blank, IsHex64, ActiveGoals, Only;
  }

  lemma AdvanceKeepsCurrent(s: Snapshot, r: Request, to: GoalState, t: Reduced)
    requires AfterAdvance(s, r, to) == Ok(t)
    ensures t.snapshot.currentResult == s.currentResult
  {
    AdvanceDelta(s, r, to, t);
    hide AfterAdvance, Launches, NextInLine, GoalChain, Moved, Quiet;
  }

  lemma DecisionKeepsCurrent(s: Snapshot, r: Request, ctx: Context, d: Decision, fingerprint: string, t: Reduced)
    requires AfterDecision(s, r, ctx, d, fingerprint) == Ok(t)
    ensures t.snapshot.currentResult == s.currentResult
  {
    DecisionDelta(s, r, ctx, d, fingerprint, t);
    hide AfterDecision, Launches, RepairChain, Only, ActiveGoals, CountedFor;
  }

  lemma ResumeKeepsCurrent(s: Snapshot, fields: ResumeFields, t: Reduced)
    requires AfterResume(s, fields) == Ok(t)
    ensures t.snapshot == s.(execution := t.snapshot.execution, plan := t.snapshot.plan)
  {
    hide ExtendBudget, IsHex64;
    var wait := s.execution.wait;
    if wait == Some(WaitBudget) {
      assert fields.BudgetFields?;
      assert t.snapshot.plan == ExtendBudget(s, fields).value.0;
    } else if wait in {Some(WaitHuman), Some(WaitTime)} {
      assert t.snapshot.plan == s.plan;
    } else {
      assert t.snapshot.plan == s.plan;
    }
  }

  lemma CommitMovesCurrent(s: Snapshot, i: Input, t: Reduced)
    requires Commit(Some(s), i) == Ok(t)
    ensures var r := i.command.request;
            && (r.payload.Stage? ==> NewResult in r.allocate && t.snapshot.currentResult == Some(r.allocate[NewResult]))
            && (!r.payload.Stage? ==> t.snapshot.currentResult == s.currentResult)
            && t.snapshot.loopRevision >= 1
  {
    hide Dispatch, ValidateCommand, ValidateAuthority, ValidateReferences, Fits, AfterCreate;
    CurrentResultMoves(s, i.command.request, i.context, Dispatch(s, i.command.request, i.context).value);
  }

  lemma NamesAreKept(p: Plan, q: Plan)
    requires PlanShape(p) && PlanShape(q) && Pairing(q.ids, q.slices) == Pairing(p.ids, p.slices)
    ensures AllTruthy(p.ids) <==> AllTruthy(q.ids)
  {
    PairingKeys(p.ids, p.slices);
    PairingKeys(q.ids, q.slices);
    forall i | 0 <= i < |p.ids| ensures p.ids[i] in q.ids { assert p.ids[i] in p.ids; }
    forall i | 0 <= i < |q.ids| ensures q.ids[i] in p.ids { assert q.ids[i] in q.ids; }
  }

  lemma ForwardsKeepsGround(s: Snapshot, t: Reduced)
    requires Inv(s) && Inv(t.snapshot) && Forwards(s, t) && Grounded(s) && t.snapshot.loopRevision >= 1
    ensures Grounded(t.snapshot) && (AllTruthy(s.plan.ids) <==> AllTruthy(t.snapshot.plan.ids))
  {
    hide CoupledInv, BoundInv, EndingInv, ObservedForwards, BudgetForwards, AttemptsConserved, RepairsCounted, Count;
    NamesAreKept(s.plan, t.snapshot.plan);
  }

  /** An accepted command keeps a content loop on its route, unless it stages a result under an empty reference. */
  lemma ModeIsStable(s: Snapshot, i: Input, t: Reduced)
    requires Inv(s) && Grounded(s) && ModeOf(Some(StoredOf(s))) == ContentMode && Commit(Some(s), i) == Ok(t)
    ensures var r := i.command.request;
            ModeOf(Some(StoredOf(t.snapshot)))
            == if r.payload.Stage? && Find(r.allocate, NewResult) == Some(Text("")) then MalformedMode else ContentMode
    ensures Grounded(t.snapshot)
  {
    hide Commit, ModeOf, StoredOf, Forwards, Grounded, PlanInv, CoupledInv, BoundInv, EndingInv;
    CommitForwards(s, i, t);
    CommitMovesCurrent(s, i, t);
    ForwardsKeepsGround(s, t);
    ContentExactly(s);
    ContentExactly(t.snapshot);
  }

  // From creation on -------------------------------------------------------------------------------------------

  lemma {:induction false} PairedWithDigests(ids: seq<Str>, slices: seq<Str>)
    requires |ids| == |slices| && forall i :: 0 <= i < |slices| ==> Is64(slices[i])
    ensures forall k :: k in Pairing(ids, slices) ==> Is64(Pairing(ids, slices)[k])
  {
    if ids != [] {
      PairingStep(ids, slices);
      PairedWithDigests(ids[..|ids| - 1], slices[..|slices| - 1]);
    }
  }

  /** What the first commit of a loop comes from. */
  lemma FirstCommit(i: Input, t: Reduced) returns (d: Reduced)
    requires Commit(None, i) == Ok(t)
    ensures i.command.request.payload.Create? && ValidateReferences(None, i.command.request).Pass?
    ensures AfterCreate(None, i.command.request, i.context, i.command.request.payload.startup) == Ok(d)
    ensures t == Renumbered(d, 1)
  {
    hide AfterCreate, ValidateCommand, ValidateAuthority, ValidateReferences, Fits;
    var r := i.command.request;
    d := AfterCreate(None, r, i.context, r.payload.startup).value;
    CreateRevision(r, i.context, r.payload.startup, d);
  }

  lemma CreateRevision(r: Request, ctx: Context, c: Startup, t: Reduced)
    requires AfterCreate(None, r, ctx, c) == Ok(t)
    ensures r.expectedRevision == 0
  {
    hide StartupReceipt, StartupBaseline, ValidPlanIdentity, ValidObjective;
  }

  lemma CreateGrounds(r: Request, ctx: Context, c: Startup, d: Reduced)
    requires AfterCreate(None, r, ctx, c) == Ok(d) && ValidateReferences(None, r).Pass?
    ensures var u := Renumbered(d, 1).snapshot;
            SnapshotPlanInv(u) && Grounded(u) && (Named(u) <==> AllTruthy(c.ids))
  {
    CreateDelta(r, ctx, c, d);
    CreateEstablishesPlan(r, ctx, c, d);
    hide AfterCreate, PlanInv, Distinct, FreshPair;
    PairedWithDigests(c.ids, c.slices);
  }

  /** A loop is created on the content route exactly when every planned id is named. */
  lemma CreateMode(i: Input, t: Reduced)
    requires Commit(None, i) == Ok(t)
    ensures i.command.request.payload.Create? && Grounded(t.snapshot)
    ensures ModeOf(Some(StoredOf(t.snapshot)))
            == if AllTruthy(i.command.request.payload.startup.ids) then ContentMode else MalformedMode
  {
    hide Commit, AfterCreate, ValidateReferences, Grounded, Named, ModeOf, PlanInv, StoredOf;
    var d := FirstCommit(i, t);
    CreateGrounds(i.command.request, i.context, i.command.request.payload.startup, d);
    ContentExactly(t.snapshot);
  }

  /** In any run, the snapshot is on the content route exactly while its ids and its current result are named; it is
      never on another route. */
  lemma {:induction false} ReachableMode(run: seq<Input>)
    ensures After(run).Some? ==>
              && Grounded(After(run).value)
              && ModeOf(Some(StoredOf(After(run).value))) == if Named(After(run).value) then ContentMode else MalformedMode
  {
    hide Commit, Inv, Grounded, Named, ModeOf, StoredOf, Forwards, Fits;
    if run != [] {
      var front, last := run[..|run| - 1], run[|run| - 1];
      ReachableMode(front);
      ReachableInv(front);
      ReachableInv(run);
      LastCommand(run);
      var s := After(front);
      match Commit(s, last)
      case Err(_) =>
      case Ok(t) =>
        if s.None? {
          CreateMode(last, t);
        } else {
          CommitForwards(s.value, last, t);
          CommitMovesCurrent(s.value, last, t);
          ForwardsKeepsGround(s.value, t);
        }
        InvHasPlan(t.snapshot);
        ContentExactly(t.snapshot);
    }
  }

  lemma InvHasPlan(s: Snapshot)
    requires Inv(s)
    ensures SnapshotPlanInv(s)
  {
    hide SnapshotPlanInv, CoupledInv, BoundInv, EndingInv;
  }
}
