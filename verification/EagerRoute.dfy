/** Continuation of loops persisted before content addressing: an eager plan that lists its goals by reference, or a
    single goal and no plan. Only the parts that classification reads, and what decides their changes, are kept. */
module EagerRoute {
  import opened Base
  import opened Records
  import opened Commands
  import opened Kernel
  import opened PlanProgress
  import opened StorageMode
  import opened Authority
  import opened Deliveries
  import Evidence

  datatype OldState = Pending | In(state: GoalState)

  /** `chain` is absent when one of the references that starting the goal needs is missing. */
  datatype OldGoal = OldGoal(
    chainGoal: Option<Str>, chain: Option<Chain>, dependsOn: Option<Str>, objectiveDigest: Str, order: int,
    revision: nat, state: OldState)

  datatype OldPlan = OldPlan(
    active: Str, refs: seq<Str>, adaptive: bool, maxRevisions: int, revision: int)

  /** A result names its goal, its route or its effect, as the command that staged it does. */
  datatype OldResult = OldResult(
    acknowledged: bool, outcome: Outcome, attemptRef: Str, reportRef: Str, artifactRef: Option<Str>,
    goalRef: Option<Str>, effectRef: Option<Str>, routeRef: Option<Str>)

  /** Effects of loops without a plan need not name a goal. */
  datatype OldEffect = OldEffect(goal: Option<Str>, attempt: Str, committed: bool)

  /** `attempts` are those of effects; those of deliveries are in `traffic`. */
  datatype OldLoop = OldLoop(
    loop: Str, revision: int, goals: map<Str, OldGoal>, plan: Option<OldPlan>, effects: map<Str, OldEffect>,
    attempts: set<Str>, traffic: Traffic, results: map<Str, OldResult>, reviews: map<Str, Review>,
    execution: ExecutionState, current: Option<Str>)

  /** A goal of a loop without a plan has exactly the three legacy keys; under a plan it has the eager ones. */
  function StoredOld(s: OldLoop): Stored {
    Stored(true, s.loop, s.revision, s.current,
           map g | g in s.goals ::
             if s.plan.None? then LegacyGoal else EagerGoal(s.goals[g].order, s.goals[g].chainGoal),
           if s.plan.None? then None else Some(EagerPlan(s.plan.value.active, s.plan.value.refs)))
  }

  function OldMode(s: OldLoop): Mode { ModeOf(Some(StoredOld(s))) }

  /** The commands that touch what classification reads, or what later decides about it. `OldEvidence` stands for all
      others (observations, acknowledgements, reviews, decisions, pauses, finalizations): it may put anything into the
      records that they write, none of which classification reads. */
  datatype OldCommand =
    | OldAdvance(goal: Str, review: Option<Str>, to: GoalState, baseline: bool)
    | OldRevise(objectives: seq<string>, reason: string)
    | OldStop(reason: string)
    | OldStage(effect: Str, result: Option<Str>, report: Option<Str>, observation: Option<Str>, outcome: Outcome,
               summary: string)
    | OldRoute(command: RouteCommand)
    | OldEvidence(effects: map<Str, OldEffect>, attempts: set<Str>, results: map<Str, OldResult>,
                  reviews: map<Str, Review>, execution: ExecutionState)
    | OldCreate

  // AdvanceGoal ------------------------------------------------------------------------------------------------

  /** The goals a result is bound to, by itself, its route and its effect; absent when one of them is dangling. */
  function BoundGoals(s: OldLoop, result: OldResult): Option<set<Str>> {
    if (result.routeRef.Some? && result.routeRef.value !in s.traffic.routes)
       || (result.effectRef.Some? && result.effectRef.value !in s.effects)
       || (result.effectRef.Some? && s.effects[result.effectRef.value].goal.None? && s.plan.Some?)
    then None
    else Some(
      (if result.goalRef.Some? then {result.goalRef.value} else {})
      + (if result.routeRef.Some? then {s.traffic.routes[result.routeRef.value].goal} else {})
      + (if result.effectRef.Some? && s.effects[result.effectRef.value].goal.Some?
         then {s.effects[result.effectRef.value].goal.value} else {}))
  }

  predicate MayAdvanceOld(result: OldResult, review: Review, to: GoalState) {
    match to
    case Done => result.outcome == PassOutcome && review.verdict == PassVerdict
    case Failed => result.outcome == FailedOutcome && review.verdict in {PassVerdict, LimitationVerdict}
    case Limited => review.verdict == LimitationVerdict
    case _ => false
  }

  predicate JustifiedOld(s: OldLoop, goalRef: Str, reviewRef: Str, to: GoalState) {
    && goalRef in s.goals && s.goals[goalRef].state == In(Active)
    && reviewRef in s.reviews && s.reviews[reviewRef].resultRef in s.results
    && var review := s.reviews[reviewRef];
       var result := s.results[review.resultRef];
       && result.acknowledged && result.reportRef == review.reportRef && result.artifactRef == Some(review.artifactRef)
       && BoundGoals(s, result) == Some({goalRef})
       && MayAdvanceOld(result, review, to)
  }

  function IndexOf(refs: seq<Str>, ref: Str): (i: nat)
    requires ref in refs
    ensures i < |refs| && refs[i] == ref
  {
    if refs[0] == ref then 0 else 1 + IndexOf(refs[1..], ref)
  }

  /** Activates the goal after the finished one and commits its attempt. */
  function ActivateNext(s: OldLoop, p: OldPlan, from: Str, attempt: Str, baseline: bool): Result<OldLoop>
    requires s.plan == Some(p)
  {
    if from !in p.refs then Err(Fault)
    else if IndexOf(p.refs, from) + 1 == |p.refs| then Ok(s)
    else
      var candidate := p.refs[IndexOf(p.refs, from) + 1];
      var next :- Get(s.goals, candidate);
      :- Need(next.dependsOn == Some(from) && next.state == Pending, InternalInvariantViolation);
      :- Need(next.chain.Some?, InternalInvariantViolation);
      var chain := next.chain.value;
      :- Need(chain.attemptRef !in s.attempts && chain.attemptRef !in s.traffic.sends && chain.effectRef !in s.effects,
              AttemptAlreadyConsumed);
      if attempt !in s.attempts then Err(Fault)
      else
        :- Need(baseline, InvalidCommand);
        Ok(s.(goals := s.goals[candidate := next.(revision := next.revision + 1, state := In(Active))],
              effects := s.effects[chain.effectRef := OldEffect(Some(candidate), chain.attemptRef, true)],
              attempts := s.attempts + {chain.attemptRef},
              plan := Some(p.(active := candidate))))
  }

  function AfterOldAdvance(s: OldLoop, goalRef: Str, reviewRef: Option<Str>, to: GoalState, baseline: bool)
    : Result<OldLoop>
  {
    if reviewRef.None? then Err(Rejected(InvalidCommand))
    else if !JustifiedOld(s, goalRef, reviewRef.value, to) then Err(Rejected(InvalidTransition))
    else
      var goal := s.goals[goalRef];
      var advanced := s.(goals := s.goals[goalRef := goal.(revision := goal.revision + 1, state := In(to))]);
      if to == Done && s.plan.Some? then
        ActivateNext(advanced, s.plan.value, goalRef, s.results[s.reviews[reviewRef.value].resultRef].attemptRef, baseline)
      else Ok(advanced)
  }

  /** An old goal advances only by a review of an acknowledged result bound to it alone that warrants the disposition for
      a required goal: none is ever skipped. */
  lemma OldAdvanceIsWarranted(s: OldLoop, goalRef: Str, reviewRef: Option<Str>, to: GoalState, baseline: bool)
    requires AfterOldAdvance(s, goalRef, reviewRef, to, baseline).Ok?
    ensures goalRef in s.goals && s.goals[goalRef].state == In(Active)
    ensures reviewRef.Some? && reviewRef.value in s.reviews && s.reviews[reviewRef.value].resultRef in s.results
    ensures var review := s.reviews[reviewRef.value]; var result := s.results[review.resultRef];
            && result.acknowledged && result.reportRef == review.reportRef && result.artifactRef == Some(review.artifactRef)
            && (result.goalRef.Some? ==> result.goalRef.value == goalRef)
            && Evidence.Warrants(Required, result.outcome, review.verdict, to)
  {
    hide ActivateNext;
    var result := s.results[s.reviews[reviewRef.value].resultRef];
    if result.goalRef.Some? { assert result.goalRef.value in BoundGoals(s, result).value; }
  }

  // ReviseGoalPlan ---------------------------------------------------------------------------------------------

  function ObjectiveDigest(text: string): Str { Digest(ObjectiveText(Strip(text))) }

  function Digests(goals: map<Str, OldGoal>): set<Str> { set g | g in goals :: goals[g].objectiveDigest }

  function Named(objectives: seq<string>): set<Str> { set i | 0 <= i < |objectives| :: ObjectiveDigest(objectives[i]) }

  /** The goal an objective names. */
  ghost function GoalNamed(goals: map<Str, OldGoal>, digest: Str): (g: Str)
    requires digest in Digests(goals)
    ensures g in goals && goals[g].objectiveDigest == digest
  {
    var g :| g in goals && goals[g].objectiveDigest == digest;
    g
  }

  ghost function Reordered(goals: map<Str, OldGoal>, objectives: seq<string>): (refs: seq<Str>)
    requires Named(objectives) <= Digests(goals)
    ensures |refs| == |objectives|
    ensures forall i :: 0 <= i < |refs| ==> refs[i] == GoalNamed(goals, ObjectiveDigest(objectives[i]))
  {
    if objectives == [] then []
    else
      var n := |objectives| - 1;
      assert Named(objectives[..n]) <= Named(objectives) by {
        forall i | 0 <= i < n ensures ObjectiveDigest(objectives[..n][i]) in Named(objectives) {
          assert objectives[..n][i] == objectives[i];
        }
      }
      assert ObjectiveDigest(objectives[n]) in Named(objectives);
      Reordered(goals, objectives[..n]) + [GoalNamed(goals, ObjectiveDigest(objectives[n]))]
  }

  /** Each goal of the new order depends on the one before it. */
  function Relinked(goals: map<Str, OldGoal>, refs: seq<Str>): map<Str, OldGoal> {
    map g | g in goals ::
      if g in refs then
        var i := IndexOf(refs, g);
        goals[g].(dependsOn := if i == 0 then None else Some(refs[i - 1]), order := i)
      else goals[g]
  }

  predicate ValidObjectives(p: OldPlan, objectives: seq<string>, reason: string) {
    && |objectives| == |p.refs| && (forall i :: 0 <= i < |objectives| ==> !Blank(objectives[i]))
    && (forall i, j :: 0 <= i < j < |objectives| ==> Strip(objectives[i]) != Strip(objectives[j]))
    && ValidReason(reason)
  }

  ghost function AfterOldRevise(s: OldLoop, objectives: seq<string>, reason: string): Result<OldLoop> {
    if s.plan.None? || !s.plan.value.adaptive then Err(Rejected(InvalidTransition))
    else
      var p := s.plan.value;
      if p.revision >= p.maxRevisions then Err(Rejected(InvalidTransition))
      else if !ValidObjectives(p, objectives, reason) then Err(Rejected(InvalidCommand))
      else if Named(objectives) != Digests(s.goals) || |objectives| != |Digests(s.goals)| then
        Err(Rejected(AuthorityScopeMismatch))
      else
        var refs := Reordered(s.goals, objectives);
        if refs == [] then Err(Fault)
        else if refs[0] != p.active then Err(Rejected(InvalidTransition))
        else Ok(s.(goals := Relinked(s.goals, refs), plan := Some(p.(refs := refs, revision := p.revision + 1))))
  }

  // StopLoop, StageExternalResult ------------------------------------------------------------------------------

  function LiveGoals(goals: map<Str, OldGoal>): set<Str> { set g | g in goals && goals[g].state == In(Active) }

  function AfterOldStop(s: OldLoop, reason: string): Result<OldLoop> {
    if s.execution !in {Running, Paused} then Err(Rejected(InvalidTransition))
    else if !ValidReason(reason) then Err(Rejected(InvalidCommand))
    else
      var active := Only(LiveGoals(s.goals));
      if active.None? then Err(Rejected(InvalidTransition))
      else
        assert active.value in LiveGoals(s.goals);
        var goal := s.goals[active.value];
        Ok(s.(goals := s.goals[active.value := goal.(revision := goal.revision + 1, state := In(Halted))],
              execution := Terminal))
  }

  function AfterOldStage(s: OldLoop, c: OldCommand): Result<OldLoop>
    requires c.OldStage?
  {
    var effect :- Get(s.effects, c.effect);
    :- Need(!effect.committed, InvalidTransition);
    var result :- Given(c.result);
    var report :- Given(c.report);
    var observation :- Given(c.observation);
    :- Need(IsHex64(observation), ReceiptIdentityMismatch);
    :- Need(!Blank(c.summary), ResourceLimitExceeded);
    var active := Only(LiveGoals(s.goals));
    :- Need(active.Some?, InvalidTransition);
    var staged := OldResult(false, c.outcome, effect.attempt, report, None, active, Some(c.effect), None);
    Ok(s.(results := s.results[result := staged], current := if s.plan.Some? then Some(result) else s.current))
  }

  // Routes and deliveries --------------------------------------------------------------------------------------

  function AfterOldRoute(s: OldLoop, c: RouteCommand): Result<OldLoop> {
    match c
    case BindHost(_, _) =>
      var _ :- BoundHost(s.loop, c);
      Ok(s)
    case PrepareRoute(_, _, _, _, _) =>
      var traffic :- AfterPrepareRoute(s.traffic, s.goals.Keys, LiveGoals(s.goals), c);
      Ok(s.(traffic := traffic))
    case BeginDelivery(_, _, _) =>
      var traffic :- AfterBegin(s.traffic, c);
      var attempt :- Given(c.attempt);
      Ok(s.(traffic := traffic, attempts := s.attempts - {attempt}))
    case ObserveDelivery(_, _) =>
      var traffic :- AfterSend(s.traffic, s.loop, c);
      Ok(s.(traffic := traffic))
    case StageResult(_, _, _, _, _) =>
      var staged :- StagedByRoute(s.traffic, c);
      var routed := staged.1;
      var result := OldResult(false, routed.outcome, routed.attempt, routed.report, None, None, None, Some(routed.route));
      Ok(s.(results := s.results[staged.0 := result],
            current := if s.plan.Some? then Some(staged.0) else s.current))
  }

  /** `reduce_eager_command`: refuses malformed and content snapshots, and creation. */
  ghost function ReduceOld(s: OldLoop, c: OldCommand): Result<OldLoop> {
    if OldMode(s) == MalformedMode then Err(Rejected(InternalInvariantViolation))
    else if OldMode(s) == ContentMode || c.OldCreate? then Err(Rejected(UnsupportedProtocolVersion))
    else
      var t :- match c
               case OldAdvance(goal, review, to, baseline) => AfterOldAdvance(s, goal, review, to, baseline)
               case OldRevise(objectives, reason) => AfterOldRevise(s, objectives, reason)
               case OldStop(reason) => AfterOldStop(s, reason)
               case OldStage(_, _, _, _, _, _) => AfterOldStage(s, c)
               case OldRoute(command) => AfterOldRoute(s, command)
               case OldEvidence(effects, attempts, results, reviews, execution) =>
                 Ok(s.(effects := effects, attempts := attempts, results := results, reviews := reviews,
                       execution := execution))
               case OldCreate => Err(Rejected(UnsupportedProtocolVersion));
      Ok(t.(revision := s.revision + 1))
  }

  /** StageExternalResult or StageResult under an empty reference, which only planned loops record as current. */
  predicate StagesUnnamed(s: OldLoop, c: OldCommand) {
    && s.plan.Some?
    && (|| (c.OldStage? && c.result == Some(Text("")))
        || (c.OldRoute? && c.command.StageResult? && c.command.result == Some(Text(""))))
  }

  // Stability --------------------------------------------------------------------------------------------------

  /** Goals, orders and plan references as classification sees them. */
  lemma SameShape(s: OldLoop, t: OldLoop)
    requires OldMode(s) in {EagerMode, LegacyAbsentMode}
    requires t.loop == s.loop && t.revision >= 1 && t.goals.Keys == s.goals.Keys
    requires forall g :: g in s.goals ==> t.goals[g].order == s.goals[g].order && t.goals[g].chainGoal == s.goals[g].chainGoal
    requires t.plan.Some? <==> s.plan.Some?
    requires t.plan.Some? ==> t.plan.value.refs == s.plan.value.refs && t.plan.value.active in t.plan.value.refs
    ensures OldMode(t) == if t.current.Some? && !Truthy(t.current.value) then MalformedMode else OldMode(s)
  {
    assert StoredOld(t).goals == StoredOld(s).goals;
    if s.plan.Some? {
      assert EagerShaped(StoredOld(s).plan.value, StoredOld(s).goals);
      forall i | 0 <= i < |s.plan.value.refs| ensures EagerAt(StoredOld(t).goals, s.plan.value.refs, i) {
        assert EagerAt(StoredOld(s).goals, s.plan.value.refs, i);
      }
    }
  }

  lemma PlanIsEager(s: OldLoop)
    requires OldMode(s) in {EagerMode, LegacyAbsentMode} && s.plan.Some?
    ensures OldMode(s) == EagerMode && EagerShaped(StoredOld(s).plan.value, StoredOld(s).goals)
    ensures s.plan.value.active in s.plan.value.refs && Elements(s.plan.value.refs) == s.goals.Keys
    ensures |s.plan.value.refs| >= 2 && AllTruthy(s.plan.value.refs)
    ensures forall g :: g in s.goals ==> s.goals[g].chainGoal == Some(g)
  {
    var refs, goals := s.plan.value.refs, StoredOld(s).goals;
    assert goals.Keys == s.goals.Keys;
    forall g | g in s.goals ensures s.goals[g].chainGoal == Some(g) {
      assert g in Elements(refs);
      var i :| 0 <= i < |refs| && refs[i] == g;
      assert EagerAt(goals, refs, i);
    }
  }

  lemma OldIsCommon(s: OldLoop)
    requires OldMode(s) != MalformedMode
    ensures Truthy(s.loop) && s.revision >= 1 && (s.current.Some? ==> Truthy(s.current.value))
  {
  }

  /** Same goals under the same orders and references, and an active goal of the plan. */
  predicate KeepsLayout(s: OldLoop, t: OldLoop) {
    && t.loop == s.loop && t.revision == s.revision && t.goals.Keys == s.goals.Keys
    && (forall g :: g in s.goals ==> t.goals[g].order == s.goals[g].order && t.goals[g].chainGoal == s.goals[g].chainGoal)
    && (t.plan.Some? <==> s.plan.Some?)
    && (t.plan.Some? ==> t.plan.value.refs == s.plan.value.refs
                         && (t.plan.value.active in t.plan.value.refs || t.plan.value.active == s.plan.value.active))
  }

  lemma ActivateKeepsLayout(s: OldLoop, p: OldPlan, from: Str, attempt: Str, baseline: bool, t: OldLoop)
    requires s.plan == Some(p) && ActivateNext(s, p, from, attempt, baseline) == Ok(t)
    ensures KeepsLayout(s, t) && t.current == s.current
  {
  }

  lemma AdvanceKeepsLayout(s: OldLoop, goalRef: Str, review: Option<Str>, to: GoalState, baseline: bool, t: OldLoop)
    requires AfterOldAdvance(s, goalRef, review, to, baseline) == Ok(t)
    ensures KeepsLayout(s, t) && t.current == s.current
  {
    hide ActivateNext, BoundGoals, MayAdvanceOld;
    var goal := s.goals[goalRef];
    var advanced := s.(goals := s.goals[goalRef := goal.(revision := goal.revision + 1, state := In(to))]);
    if to == Done && s.plan.Some? {
      ActivateKeepsLayout(advanced, s.plan.value, goalRef, s.results[s.reviews[review.value].resultRef].attemptRef,
                          baseline, t);
    }
  }

  lemma LayoutKeepsMode(s: OldLoop, t: OldLoop)
    requires OldMode(s) in {EagerMode, LegacyAbsentMode} && KeepsLayout(s, t)
    ensures OldMode(t.(revision := s.revision + 1))
            == if t.current.Some? && !Truthy(t.current.value) then MalformedMode else OldMode(s)
  {
    OldIsCommon(s);
    if s.plan.Some? { PlanIsEager(s); }
    hide ModeOf;
    SameShape(s, t.(revision := s.revision + 1));
  }

  // A revision permutes the plan -------------------------------------------------------------------------------

  lemma {:induction false} DigestsCount(goals: map<Str, OldGoal>)
    ensures |Digests(goals)| <= |goals|
    ensures |Digests(goals)| == |goals| ==>
              forall g, h :: g in goals && h in goals && g != h ==> goals[g].objectiveDigest != goals[h].objectiveDigest
    decreases |goals|
  {
    if |goals| > 0 {
      var g :| g in goals;
      var rest := goals - {g};
      DigestsCount(rest);
      assert goals.Keys == rest.Keys + {g};
      assert |goals.Keys| == |goals| && |rest.Keys| == |rest|;
      assert Digests(goals) == Digests(rest) + {goals[g].objectiveDigest};
      if |Digests(goals)| == |goals| {
        assert goals[g].objectiveDigest !in Digests(rest);
      }
    } else {
      assert Digests(goals) == {};
    }
  }

  lemma ReorderedCovers(goals: map<Str, OldGoal>, objectives: seq<string>, g: Str)
    requires Named(objectives) == Digests(goals) && g in goals
    requires forall h :: h in goals && h != g ==> goals[h].objectiveDigest != goals[g].objectiveDigest
    ensures g in Elements(Reordered(goals, objectives))
  {
    assert goals[g].objectiveDigest in Digests(goals);
    var i :| 0 <= i < |objectives| && ObjectiveDigest(objectives[i]) == goals[g].objectiveDigest;
    assert Reordered(goals, objectives)[i] == GoalNamed(goals, goals[g].objectiveDigest) == g;
  }

  /** The new order lists exactly the goals, each once. */
  lemma ReorderedPermutes(goals: map<Str, OldGoal>, objectives: seq<string>)
    requires Named(objectives) == Digests(goals) && |objectives| == |Digests(goals)| == |goals|
    ensures Elements(Reordered(goals, objectives)) == goals.Keys
    ensures Distinct(Reordered(goals, objectives))
  {
    var refs := Reordered(goals, objectives);
    DigestsCount(goals);
    forall g | g in goals ensures g in Elements(refs) { ReorderedCovers(goals, objectives, g); }
    forall i | 0 <= i < |refs| ensures refs[i] in goals {
      assert refs[i] == GoalNamed(goals, ObjectiveDigest(objectives[i]));
    }
    assert Elements(refs) == goals.Keys;
    assert |goals.Keys| == |goals|;
    assert Elements(refs) == set i | 0 <= i < |refs| :: refs[i];
  }

  lemma {:induction false} IndexIsUnique(refs: seq<Str>, i: nat)
    requires NoRepeats(refs) && i < |refs|
    ensures refs[i] in refs && IndexOf(refs, refs[i]) == i
  {
    if i > 0 {
      assert NoRepeats(refs[1..]);
      IndexIsUnique(refs[1..], i - 1);
    }
  }

  lemma RevisionIsEager(s: OldLoop, refs: seq<Str>, t: OldLoop)
    requires s.plan.Some? && OldMode(s) == EagerMode
    requires |refs| == |s.plan.value.refs| && Elements(refs) == s.goals.Keys && Distinct(refs)
    requires refs[0] == s.plan.value.active
    requires t == s.(goals := Relinked(s.goals, refs), plan := t.plan, revision := s.revision + 1)
    requires t.plan.Some? && t.plan.value.refs == refs && t.plan.value.active == refs[0]
    ensures OldMode(t) == EagerMode
  {
    PlanIsEager(s);
    OldIsCommon(s);
    hide ModeOf;
    DistinctMeansNoRepeats(refs);
    var goals := StoredOld(t).goals;
    assert goals.Keys == s.goals.Keys;
    forall i | 0 <= i < |refs| ensures EagerAt(goals, refs, i) && Truthy(refs[i]) {
      IndexIsUnique(refs, i);
      assert refs[i] in Elements(refs);
      TruthyMember(s, refs[i]);
    }
    hide Distinct, Elements;
    EagerIsRecognised(t);
  }

  lemma TruthyMember(s: OldLoop, g: Str)
    requires s.plan.Some? && AllTruthy(s.plan.value.refs) && g in Elements(s.plan.value.refs)
    ensures Truthy(g)
  {
  }

  lemma EagerIsRecognised(t: OldLoop)
    requires t.plan.Some? && EagerShaped(StoredOld(t).plan.value, StoredOld(t).goals) && Common(StoredOld(t))
    ensures OldMode(t) == EagerMode
  {
  }

  lemma ReviseKeepsMode(s: OldLoop, objectives: seq<string>, reason: string, t: OldLoop)
    requires OldMode(s) in {EagerMode, LegacyAbsentMode} && AfterOldRevise(s, objectives, reason) == Ok(t)
    ensures OldMode(t.(revision := s.revision + 1)) == OldMode(s)
  {
    PlanIsEager(s);
    var goals, refs := s.goals, s.plan.value.refs;
    assert |Elements(refs)| == |refs| && |goals.Keys| == |goals|;
    hide ModeOf, EagerShaped;
    ReorderedPermutes(goals, objectives);
    RevisionIsEager(s, Reordered(goals, objectives), t.(revision := s.revision + 1));
  }

  lemma RouteKeepsLayout(s: OldLoop, c: RouteCommand, t: OldLoop)
    requires AfterOldRoute(s, c) == Ok(t)
    ensures KeepsLayout(s, t)
    ensures t.current == if c.StageResult? && s.plan.Some? then c.result else s.current
  {
    hide AfterPrepareRoute, AfterBegin, AfterSend, BoundHost, LiveGoals;
  }

  lemma StageKeepsLayout(s: OldLoop, c: OldCommand, t: OldLoop)
    requires c.OldStage? && AfterOldStage(s, c) == Ok(t)
    ensures KeepsLayout(s, t) && t.current == if s.plan.Some? then c.result else s.current
  {
    hide LiveGoals, Only, IsHex64, Blank;
  }

  /** Every accepted command keeps an old loop on its route if and only if it does not stage a result under an empty
      reference into a planned loop. */
  lemma OldModeIsStable(s: OldLoop, c: OldCommand, t: OldLoop)
    requires ReduceOld(s, c) == Ok(t)
    ensures OldMode(s) in {EagerMode, LegacyAbsentMode}
    ensures OldMode(t) == if StagesUnnamed(s, c) then MalformedMode else OldMode(s)
  {
    hide ModeOf, AfterOldAdvance, AfterOldRevise, AfterOldStage, AfterOldRoute, AfterOldStop, KeepsLayout;
    OldIsCommon(s);
    match c
    case OldAdvance(goal, review, to, baseline) =>
      var u := AfterOldAdvance(s, goal, review, to, baseline).value;
      AdvanceKeepsLayout(s, goal, review, to, baseline, u);
      LayoutKeepsMode(s, u);
    case OldRevise(objectives, reason) =>
      ReviseKeepsMode(s, objectives, reason, AfterOldRevise(s, objectives, reason).value);
    case OldStop(reason) =>
      StopKeepsLayout(s, reason, AfterOldStop(s, reason).value);
      LayoutKeepsMode(s, AfterOldStop(s, reason).value);
    case OldStage(_, _, _, _, _, _) =>
      StageKeepsLayout(s, c, AfterOldStage(s, c).value);
      LayoutKeepsMode(s, AfterOldStage(s, c).value);
    case OldRoute(command) =>
      RouteKeepsLayout(s, command, AfterOldRoute(s, command).value);
      LayoutKeepsMode(s, AfterOldRoute(s, command).value);
    case OldEvidence(effects, attempts, results, reviews, execution) =>
      var u := s.(effects := effects, attempts := attempts, results := results, reviews := reviews,
                  execution := execution);
      EvidenceKeepsLayout(s, u);
      LayoutKeepsMode(s, u);
  }

  lemma StopKeepsLayout(s: OldLoop, reason: string, t: OldLoop)
    requires AfterOldStop(s, reason) == Ok(t)
    ensures KeepsLayout(s, t) && t.current == s.current
  {
    hide ValidReason;
  }

  lemma EvidenceKeepsLayout(s: OldLoop, t: OldLoop)
    requires t == s.(effects := t.effects, attempts := t.attempts, results := t.results, reviews := t.reviews,
                     execution := t.execution)
    ensures KeepsLayout(s, t)
  {
  }

  // Runs -------------------------------------------------------------------------------------------------------

  /** A persisted loop after some commands; the refused ones leave it as it was. */
  ghost function OldAfter(s: OldLoop, run: seq<OldCommand>): OldLoop {
    if run == [] then s
    else
      var t := OldAfter(s, run[..|run| - 1]);
      var u := ReduceOld(t, run[|run| - 1]);
      if u.Ok? then u.value else t
  }

  /** The k-th command of the run was accepted and staged a result under an empty reference into a planned loop. */
  ghost predicate StagesUnnamedAt(s: OldLoop, run: seq<OldCommand>, k: nat)
    requires k < |run|
  {
    StagesUnnamed(OldAfter(s, run[..k]), run[k]) && ReduceOld(OldAfter(s, run[..k]), run[k]).Ok?
  }

  ghost predicate RunStagesUnnamed(s: OldLoop, run: seq<OldCommand>) {
    exists k :: 0 <= k < |run| && StagesUnnamedAt(s, run, k)
  }

  lemma StagesUnnamedLast(s: OldLoop, run: seq<OldCommand>)
    requires run != []
    ensures var n := |run| - 1;
            RunStagesUnnamed(s, run) <==> RunStagesUnnamed(s, run[..n]) || StagesUnnamedAt(s, run, n)
  {
    hide ReduceOld, StagesUnnamed, OldAfter;
    var n := |run| - 1;
    forall k | 0 <= k < n ensures StagesUnnamedAt(s, run[..n], k) == StagesUnnamedAt(s, run, k) {
      assert run[..n][..k] == run[..k];
    }
  }

  /** An eager loop stays eager, and a loop without a plan stays without one, through any commands, until the first
      result that is staged under an empty reference into a planned loop; from then on it is malformed. */
  lemma {:induction false} OldModeForLife(s: OldLoop, run: seq<OldCommand>)
    requires OldMode(s) in {EagerMode, LegacyAbsentMode}
    ensures OldMode(OldAfter(s, run)) == if RunStagesUnnamed(s, run) then MalformedMode else OldMode(s)
  {
    hide OldMode, StagesUnnamed, RunStagesUnnamed, StagesUnnamedAt;
    if run == [] {
      assert !RunStagesUnnamed(s, []) by { NothingStaged(s); }
    } else {
      var n := |run| - 1;
      var t := OldAfter(s, run[..n]);
      OldModeForLife(s, run[..n]);
      StagesUnnamedLast(s, run);
      if ReduceOld(t, run[n]).Ok? { OldModeIsStable(t, run[n], ReduceOld(t, run[n]).value); }
      StagedMeans(s, run, n);
      hide ReduceOld;
    }
  }

  lemma StagedMeans(s: OldLoop, run: seq<OldCommand>, k: nat)
    requires k < |run|
    ensures StagesUnnamedAt(s, run, k)
            <==> StagesUnnamed(OldAfter(s, run[..k]), run[k]) && ReduceOld(OldAfter(s, run[..k]), run[k]).Ok?
  {
    hide OldAfter, ReduceOld, StagesUnnamed;
  }

  lemma NothingStaged(s: OldLoop)
    ensures !RunStagesUnnamed(s, [])
  {
  }
}
