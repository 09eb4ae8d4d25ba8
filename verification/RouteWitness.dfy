/** Concrete runs in which StageResult under an empty reference takes a loop off its route: an eager loop and a
    content-addressed one. */
module RouteWitness {
  import opened Base
  import opened Records
  import opened Commands
  import opened Authority
  import opened Kernel
  import opened Runs
  import opened StorageMode
  import opened Deliveries
  import Eager = EagerRoute
  import Content = ContentRoute
  import Sample = Counterexamples

  const TARGET := Text("host")
  const ROUTE := Text("route-1")
  const DELIVERY := Text("delivery-1")
  const ATTEMPT := Named(AttemptRef, "1")
  const KEY := Text("key")
  const REPORT := Named(ReportRef, "1")
  const INTENT := Digest(ReasonText("loopskill-route-intent-v1\n", "send"))

  /** An observation of the delivery, from a trusted issuer. */
  function Sighting(loop: Str): Receipt {
    Receipt(Text("sent"), true, Text("issuer"), Text("trusted"), StrictTrust, SEND, loop, DELIVERY, Some(ATTEMPT), Some(TARGET),
            Some(Digest(SendContent(INTENT, TARGET))), Some(KEY), None, SeenObserved, 0, 0, Text(""), Encoded("sent"))
  }

  function Prepare(goal: Str): RouteCommand {
    PrepareRoute(Some(goal), Some(TARGET), Some(ROUTE), Some(DELIVERY), "send")
  }

  const BEGIN := BeginDelivery(DELIVERY, Some(ATTEMPT), Some(KEY))

  function Observe(loop: Str): RouteCommand { ObserveDelivery(ATTEMPT, Some(Sighting(loop))) }

  const STAGE := StageResult(ROUTE, Some(Text("")), Some(REPORT), PassOutcome, "done")

  function Planned(goal: Str): Traffic {
    Traffic(map[ROUTE := Route(DELIVERY, goal, INTENT, TARGET)],
            map[DELIVERY := Delivery(ROUTE, TARGET, false, DeliveryState.Prepared, None)], map[])
  }

  function Sending(goal: Str, state: Observation): Traffic {
    Traffic(map[ROUTE := Route(DELIVERY, goal, INTENT, TARGET)],
            map[DELIVERY := Delivery(ROUTE, TARGET, true, Sent(state), Some(ATTEMPT))],
            map[ATTEMPT := Send(DELIVERY, KEY, Digest(SendContent(INTENT, TARGET)), TARGET, state)])
  }

  lemma PrepareRuns(goals: set<Str>, active: set<Str>, goal: Str)
    requires goal in goals && goal in active
    ensures AfterPrepareRoute(NO_TRAFFIC, goals, active, Prepare(goal)) == Ok(Planned(goal))
  {
    assert "send"[0] == 's';
  }

  lemma BeginRuns(goal: Str)
    ensures AfterBegin(Planned(goal), BEGIN) == Ok(Sending(goal, Committed))
  {
    var t := AfterBegin(Planned(goal), BEGIN).value;
    assert t.deliveries == Sending(goal, Committed).deliveries && t.sends == Sending(goal, Committed).sends;
  }

  lemma ObserveRuns(goal: Str, loop: Str)
    ensures AfterSend(Sending(goal, Committed), loop, Observe(loop)) == Ok(Sending(goal, Observed))
  {
    var t := AfterSend(Sending(goal, Committed), loop, Observe(loop)).value;
    assert t.deliveries == Sending(goal, Observed).deliveries && t.sends == Sending(goal, Observed).sends;
  }

  lemma StageRuns(goal: Str)
    ensures StagedByRoute(Sending(goal, Observed), STAGE)
            == Ok((Text(""), RoutedResult(ATTEMPT, DELIVERY, ROUTE, PassOutcome, REPORT, false, None)))
  {
    assert "done"[0] == 'd';
  }

  // An eager loop ----------------------------------------------------------------------------------------------

  const LOOP := Named(LoopRef, "old")
  const FIRST := Named(GoalRef, "first")
  const SECOND := Named(GoalRef, "second")

  /** A persisted loop of two goals, the first of them active. */
  const EAGER_LOOP := Eager.OldLoop(
    LOOP, 1,
    map[FIRST := Eager.OldGoal(Some(FIRST), None, None, Digest(ObjectiveText("a")), 0, 1, Eager.In(Active)),
        SECOND := Eager.OldGoal(Some(SECOND), None, Some(FIRST), Digest(ObjectiveText("b")), 1, 1, Eager.Pending)],
    Some(Eager.OldPlan(FIRST, [FIRST, SECOND], true, 3, 1)), map[], {}, NO_TRAFFIC, map[], map[], Running, None)

  lemma LoopIsEager()
    ensures Eager.OldMode(EAGER_LOOP) == EagerMode
  {
    var refs := [FIRST, SECOND];
    var goals := Eager.StoredOld(EAGER_LOOP).goals;
    assert refs[0] == FIRST && refs[1] == SECOND;
    assert Elements(refs) == {FIRST, SECOND} == goals.Keys;
    assert (set i | 0 <= i < |refs| :: refs[i]) == {FIRST, SECOND};
    assert EagerAt(goals, refs, 0) && EagerAt(goals, refs, 1);
  }

  lemma OldGrows(s: Eager.OldLoop, run: seq<Eager.OldCommand>, c: Eager.OldCommand, t: Eager.OldLoop)
    requires Eager.ReduceOld(Eager.OldAfter(s, run), c) == Ok(t)
    ensures Eager.OldAfter(s, run + [c]) == t
  {
    hide Eager.ReduceOld;
    assert (run + [c])[..|run|] == run;
  }

  /** A route command that its reducer accepts is accepted on the eager route. */
  lemma OldRouted(s: Eager.OldLoop, run: seq<Eager.OldCommand>, c: RouteCommand, t: Eager.OldLoop)
    requires Eager.OldMode(Eager.OldAfter(s, run)) == EagerMode && Eager.AfterOldRoute(Eager.OldAfter(s, run), c) == Ok(t)
    ensures Eager.OldAfter(s, run + [Eager.OldRoute(c)]) == t.(revision := Eager.OldAfter(s, run).revision + 1)
    ensures !c.StageResult? ==> Eager.OldMode(Eager.OldAfter(s, run + [Eager.OldRoute(c)])) == EagerMode
    ensures c.StageResult? && c.result == Some(Text("")) && Eager.OldAfter(s, run).plan.Some? ==>
              Eager.OldMode(Eager.OldAfter(s, run + [Eager.OldRoute(c)])) == MalformedMode
  {
    hide Eager.AfterOldRoute, ModeOf, Eager.OldAfter;
    var u := t.(revision := Eager.OldAfter(s, run).revision + 1);
    OldGrows(s, run, Eager.OldRoute(c), u);
    Eager.OldModeIsStable(Eager.OldAfter(s, run), Eager.OldRoute(c), u);
  }

  /** Preparing a route, delivering along it and staging its result under an empty reference makes an eager loop
      malformed. */
  lemma EagerLoopDerails() returns (run: seq<Eager.OldCommand>)
    ensures |run| == 4 && run[3] == Eager.OldRoute(STAGE)
    ensures Eager.OldMode(Eager.OldAfter(EAGER_LOOP, run[..3])) == EagerMode
    ensures Eager.OldMode(Eager.OldAfter(EAGER_LOOP, run)) == MalformedMode
  {
    hide Eager.OldAfter, Eager.OldMode, AfterPrepareRoute, AfterBegin, AfterSend, StagedByRoute, Planned, Sending;
    assert FIRST in Eager.LiveGoals(EAGER_LOOP.goals);
    assert Eager.OldAfter(EAGER_LOOP, []) == EAGER_LOOP by { OldStarts(EAGER_LOOP); }
    LoopIsEager();
    PrepareRuns(EAGER_LOOP.goals.Keys, Eager.LiveGoals(EAGER_LOOP.goals), FIRST);
    BeginRuns(FIRST);
    ObserveRuns(FIRST, LOOP);
    StageRuns(FIRST);
    var s := EAGER_LOOP;
    var t := s.(traffic := Planned(FIRST));
    OldRouted(s, [], Prepare(FIRST), t);
    var one := [] + [Eager.OldRoute(Prepare(FIRST))];
    var u := t.(revision := 2, traffic := Sending(FIRST, Committed), attempts := t.attempts - {ATTEMPT});
    OldRouted(s, one, BEGIN, u);
    var two := one + [Eager.OldRoute(BEGIN)];
    var v := u.(revision := 3, traffic := Sending(FIRST, Observed));
    OldRouted(s, two, Observe(LOOP), v);
    var three := two + [Eager.OldRoute(Observe(LOOP))];
    OldRouted(s, three, STAGE, Eager.AfterOldRoute(v.(revision := 4), STAGE).value);
    run := three + [Eager.OldRoute(STAGE)];
    assert run[..3] == three;
  }

  lemma OldStarts(s: Eager.OldLoop)
    ensures Eager.OldAfter(s, []) == s
  {
  }

  // A content-addressed loop -----------------------------------------------------------------------------------

  const GOAL := Text("g000")
  const CREATED := Sample.Fresh([GOAL])
  const ACTIVE := Sample.ChainFor(GOAL).goalRef

  /** A route command that its reducer accepts is accepted on the content route. */
  lemma ContentRouted(s: Snapshot, run: seq<Content.ContentCommand>, c: RouteCommand, u: Content.ContentLoop)
    requires Content.Standing(Content.ContentAfter(s, run).base)
    requires Content.ModeIn(Content.ContentAfter(s, run)) == ContentMode
    requires Content.AfterRouting(Content.ContentAfter(s, run), c, Sample.ACTOR) == Ok(u)
    ensures var more := Content.ContentAfter(s, run + [Content.Routing(c, Sample.ACTOR)]);
            && more == u.(base := u.base.(loopRevision := Content.ContentAfter(s, run).base.loopRevision + 1))
            && Content.Standing(more.base)
            && Content.ModeIn(more) == if c.StageResult? && c.result == Some(Text("")) then MalformedMode else ContentMode
  {
    hide Content.AfterRouting, Content.ModeIn, Content.Standing;
    var command := Content.Routing(c, Sample.ACTOR);
    assert (run + [command])[..|run|] == run;
    Content.ContentModeIsStable(Content.ContentAfter(s, run), command,
                                Content.ReduceContent(Content.ContentAfter(s, run), command).value);
    hide Content.ReduceContent;
  }

  lemma CreatedStands()
    ensures Content.ContentAfter(CREATED, []) == Content.ContentLoop(CREATED, NO_TRAFFIC, map[])
    ensures Content.Standing(CREATED) && Content.ModeIn(Content.ContentAfter(CREATED, [])) == ContentMode
  {
    hide Commit, Sample.Fresh, Sample.Ctx, Sample.ChainFor, Content.ModeIn, Content.Standing, Content.ReduceContent,
         Content.RunStagesUnnamed;
    Sample.CreateCommits([GOAL]);
    var i := Input(Sample.CreateCommand([GOAL]), Sample.Ctx(GOAL));
    assert i.command.request.payload.startup.ids == [GOAL] && AllTruthy([GOAL]);
    Content.ContentModeForLife(i, Commit(None, i).value, []);
    Content.NothingStaged(CREATED);
  }

  lemma CreatedIsActive()
    ensures ACTIVE in CREATED.goals && ACTIVE in ActiveGoals(CREATED.goals) && CREATED.loopRef == Sample.LOOP
  {
  }

  /** The same four commands on a freshly created loop make it malformed. */
  lemma ContentLoopDerails() returns (run: seq<Content.ContentCommand>)
    ensures |run| == 4 && run[3] == Content.Routing(STAGE, Sample.ACTOR)
    ensures Content.ModeIn(Content.ContentAfter(CREATED, run[..3])) == ContentMode
    ensures Content.ModeIn(Content.ContentAfter(CREATED, run)) == MalformedMode
  {
    hide Content.ContentAfter, Content.ModeIn, Content.Standing, AfterPrepareRoute, AfterBegin, AfterSend, StagedByRoute,
         Planned, Sending, ActiveGoals, CREATED, ACTIVE;
    CreatedStands();
    CreatedIsActive();
    PrepareRuns(CREATED.goals.Keys, ActiveGoals(CREATED.goals), ACTIVE);
    BeginRuns(ACTIVE);
    ObserveRuns(ACTIVE, Sample.LOOP);
    StageRuns(ACTIVE);
    var s := CREATED;
    var t := Content.ContentLoop(s, Planned(ACTIVE), map[]);
    ContentRouted(s, [], Prepare(ACTIVE), t);
    var one := [] + [Content.Routing(Prepare(ACTIVE), Sample.ACTOR)];
    t := Content.ContentAfter(s, one);
    var u := t.(traffic := Sending(ACTIVE, Committed), base := t.base.(attempts := t.base.attempts - {ATTEMPT}));
    ContentRouted(s, one, BEGIN, u);
    var two := one + [Content.Routing(BEGIN, Sample.ACTOR)];
    u := Content.ContentAfter(s, two);
    ContentRouted(s, two, Observe(Sample.LOOP), u.(traffic := Sending(ACTIVE, Observed)));
    var three := two + [Content.Routing(Observe(Sample.LOOP), Sample.ACTOR)];
    var v := Content.ContentAfter(s, three);
    ContentRouted(s, three, STAGE, Content.AfterRouting(v, STAGE, Sample.ACTOR).value);
    run := three + [Content.Routing(STAGE, Sample.ACTOR)];
    assert run[..3] == three;
  }
}
