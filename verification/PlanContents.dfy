/** What a canonical plan keeps of the document it came from, and which documents have one. */
module PlanContents {
  import opened Base
  import opened Records
  import opened PlanDocuments

  // What is kept -----------------------------------------------------------------------------------------------

  /** Each text of the list is normalised where it stands. */
  predicate CleanedList(n: Texts, raw: seq<string>, cleaned: seq<string>) {
    |cleaned| == |raw| && forall i :: 0 <= i < |raw| ==> cleaned[i] == n.clean(raw[i])
  }

  predicate KeepsPolicy(n: Texts, raw: GoalPolicy, p: GoalPolicy) {
    && CleanedList(n, raw.capabilities, p.capabilities) && CleanedList(n, raw.refs, p.refs)
    && CleanedList(n, raw.verifiers, p.verifiers)
    && p.gate == raw.gate && p.maxAttempts == raw.maxAttempts && p.skipWhenBlocked == raw.skipWhenBlocked
    && p.onFailure == raw.onFailure && p.recovery == raw.recovery && p.replay == raw.replay
    && p.requirement == raw.requirement
  }

  predicate KeepsGoal(n: Texts, raw: PlanGoal, g: PlanGoal) {
    && g.id == n.clean(raw.id) && g.objective == n.clean(raw.objective) && CleanedList(n, raw.acceptance, g.acceptance)
    && (g.policy.Some? <==> raw.policy.Some?)
    && (raw.policy.Some? ==> KeepsPolicy(n, raw.policy.value, g.policy.value))
  }

  predicate KeepsGoals(n: Texts, raw: seq<PlanGoal>, goals: seq<PlanGoal>) {
    |goals| == |raw| && forall i :: 0 <= i < |raw| ==> KeepsGoal(n, raw[i], goals[i])
  }

  predicate KeepsBoundaries(n: Texts, raw: Boundaries, b: Boundaries) {
    && CleanedList(n, raw.write, b.write) && CleanedList(n, raw.forbiddenPaths, b.forbiddenPaths)
    && CleanedList(n, raw.forbiddenActions, b.forbiddenActions) && CleanedList(n, raw.external, b.external)
    && b.destructive == raw.destructive
  }

  predicate KeepsBudget(n: Texts, raw: PlanBudget, b: PlanBudget) {
    && b.seconds == raw.seconds && b.invocations == raw.invocations && b.cost == raw.cost
    && (b.currency.Some? <==> raw.currency.Some?)
    && (raw.currency.Some? ==> b.currency.value == n.upper(n.clean(raw.currency.value)))
  }

  predicate KeepsRequirements(n: Texts, raw: map<string, string>, requirements: map<string, string>) {
    requirements.Keys == raw.Keys && forall r :: r in raw ==> requirements[r] == n.clean(raw[r])
  }

  predicate KeepsProfile(n: Texts, raw: Option<Profile>, p: Option<Profile>) {
    && (p.Some? <==> raw.Some?)
    && (raw.Some? ==>
          && p.value.model == n.clean(raw.value.model) && p.value.timeout == raw.value.timeout
          && p.value.localVerification == raw.value.localVerification && p.value.network == raw.value.network
          && p.value.effort == raw.value.effort)
  }

  /** The plan is the document with its texts normalised: no number, flag or choice changes, lists and goals keep their
      order, requirements their keys. */
  predicate Keeps(n: Texts, d: Document, c: Document) {
    && c.version == d.version && c.adaptive == d.adaptive && c.reorders == d.reorders
    && c.source.kind == d.source.kind && c.source.contentRetained == d.source.contentRetained
    && c.source.digest == n.clean(d.source.digest)
    && c.objective == n.clean(d.objective)
    && KeepsBoundaries(n, d.boundaries, c.boundaries) && KeepsBudget(n, d.budget, c.budget)
    && CleanedList(n, d.completion, c.completion) && CleanedList(n, d.stops, c.stops)
    && KeepsGoals(n, d.goals, c.goals) && KeepsRequirements(n, d.requirements, c.requirements)
    && KeepsProfile(n, d.profile, c.profile)
  }

  // What is accepted -------------------------------------------------------------------------------------------

  /** A text that normalises to something of at most so many bytes, without NUL. */
  predicate GoodText(n: Texts, raw: string, maximum: nat) {
    n.clean(raw) != "" && '\0' !in n.clean(raw) && n.size(n.clean(raw)) <= maximum
  }

  /** A list of such texts, at most so many and different once normalised. */
  predicate GoodList(n: Texts, raw: seq<string>, items: nat, maximum: nat) {
    && |raw| <= items && (forall i :: 0 <= i < |raw| ==> GoodText(n, raw[i], maximum))
    && forall i, j :: 0 <= i < j < |raw| ==> n.clean(raw[i]) != n.clean(raw[j])
  }

  predicate GoodBoundaries(n: Texts, b: Boundaries) {
    && b.write != [] && GoodList(n, b.write, 32, 1024) && GoodList(n, b.forbiddenPaths, 32, 1024)
    && GoodList(n, b.forbiddenActions, 16, 1024) && GoodList(n, b.external, 16, 1024)
  }

  predicate GoodBudget(n: Texts, v: Version, b: PlanBudget) {
    && (b.currency.Some? ==> GoodText(n, b.currency.value, 16)) && 0 <= b.cost < 0x8000_0000_0000_0000
    && (if v == V1 then 0 <= b.invocations <= 1_000_000 && 1 <= b.seconds <= 31_536_000
        else 1 <= b.invocations <= 384 && 1 <= b.seconds <= 2_592_000)
    && (b.cost > 0 ==> b.currency.Some?)
  }

  predicate GoodPolicy(n: Texts, p: GoalPolicy, requirements: set<string>) {
    && GoodList(n, p.refs, 64, 1024) && (forall i :: 0 <= i < |p.refs| ==> n.clean(p.refs[i]) in requirements)
    && !(p.requirement == Required && p.skipWhenBlocked)
    && (p.gate in {HumanGate, TimeGate} ==> p.recovery == AskHuman)
    && p.verifiers != [] && GoodList(n, p.verifiers, 32, 4096)
    && (p.gate == HumanGate ==> |p.verifiers| == 1 && n.clean(p.verifiers[0]) == "human-approval")
    && (p.gate == TimeGate ==> |p.verifiers| == 1 && n.due(n.clean(p.verifiers[0])))
    && GoodList(n, p.capabilities, 32, 1024) && p.maxAttempts in {1, 2, 3}
  }

  predicate GoodGoal(n: Texts, v: Version, g: PlanGoal, requirements: set<string>) {
    && GoodText(n, g.id, 16) && IsNumbered(n.clean(g.id), 'g')
    && (g.policy.Some? <==> v == V2) && (g.policy.Some? ==> GoodPolicy(n, g.policy.value, requirements))
    && g.acceptance != [] && GoodList(n, g.acceptance, 16, 1024)
    && GoodText(n, g.objective, if v == V1 then 2048 else 8192)
  }

  predicate GoodGoals(n: Texts, d: Document) {
    && 1 <= |d.goals| <= (if d.version == V1 then 32 else 128)
    && (forall i :: 0 <= i < |d.goals| ==> GoodGoal(n, d.version, d.goals[i], d.requirements.Keys))
    && (forall i, j :: 0 <= i < j < |d.goals| ==> n.clean(d.goals[i].id) != n.clean(d.goals[j].id))
    && (d.version == V2 ==> WorkerAttempts(d.goals) <= d.budget.invocations)
  }

  /** Which documents have a canonical plan, field by field. */
  predicate Acceptable(n: Texts, d: Document) {
    && GoodText(n, d.source.digest, 64) && IsHexDigest(n.clean(d.source.digest)) && !d.source.contentRetained
    && GoodBoundaries(n, d.boundaries) && GoodBudget(n, d.version, d.budget)
    && 0 <= d.reorders <= 16 && (d.reorders > 0 ==> d.adaptive)
    && (d.version == V1 ==> d.requirements == map[] && d.profile == None) && (d.version == V2 ==> d.profile.Some?)
    && |d.requirements| <= 256
    && (forall r :: r in d.requirements ==> IsNumbered(r, 'r') && GoodText(n, d.requirements[r], 8192))
    && (d.profile.Some? ==> 1 <= d.profile.value.timeout <= 30_000 && GoodText(n, d.profile.value.model, 128))
    && GoodGoals(n, d)
    && GoodText(n, d.objective, if d.version == V1 then 2048 else 8192)
    && n.clean(d.objective) == n.clean(d.goals[0].objective)
    && d.completion != [] && GoodList(n, d.completion, 32, 1024) && d.stops != [] && GoodList(n, d.stops, 16, 1024)
  }

  // Proof, part by part ----------------------------------------------------------------------------------------

  lemma TextExactly(n: Texts, raw: string, maximum: nat)
    ensures CleanText(n, raw, maximum).Fine? <==> GoodText(n, raw, maximum)
    ensures CleanText(n, raw, maximum).Fine? ==> CleanText(n, raw, maximum).value == n.clean(raw)
  {
  }

  lemma {:induction false} AllExactly(n: Texts, raw: seq<string>, maximum: nat)
    ensures CleanAll(n, raw, maximum).Fine? <==> forall i :: 0 <= i < |raw| ==> GoodText(n, raw[i], maximum)
    ensures CleanAll(n, raw, maximum).Fine? ==> CleanedList(n, raw, CleanAll(n, raw, maximum).value)
  {
    if raw != [] {
      AllExactly(n, raw[..|raw| - 1], maximum);
      TextExactly(n, raw[|raw| - 1], maximum);
      hide GoodText, CleanText;
    }
  }

  lemma ListExactly(n: Texts, raw: seq<string>, items: nat, allowEmpty: bool, maximum: nat)
    ensures CleanArray(n, raw, items, allowEmpty, maximum).Fine?
            <==> GoodList(n, raw, items, maximum) && (allowEmpty || raw != [])
    ensures CleanArray(n, raw, items, allowEmpty, maximum).Fine? ==>
              CleanedList(n, raw, CleanArray(n, raw, items, allowEmpty, maximum).value)
  {
    AllExactly(n, raw, maximum);
    hide CleanAll, GoodText;
  }

  lemma SourceExactly(n: Texts, s: Source)
    ensures CanonicalSource(n, s).Fine?
            <==> GoodText(n, s.digest, 64) && IsHexDigest(n.clean(s.digest)) && !s.contentRetained
    ensures CanonicalSource(n, s).Fine? ==> CanonicalSource(n, s).value == s.(digest := n.clean(s.digest))
  {
    TextExactly(n, s.digest, 64);
    hide CleanText, GoodText, IsHexDigest;
  }

  lemma BoundariesExactly(n: Texts, b: Boundaries)
    ensures CanonicalBoundaries(n, b).Fine? <==> GoodBoundaries(n, b)
    ensures CanonicalBoundaries(n, b).Fine? ==> KeepsBoundaries(n, b, CanonicalBoundaries(n, b).value)
  {
    ListExactly(n, b.external, 16, true, ITEM_MAX);
    ListExactly(n, b.forbiddenActions, 16, true, ITEM_MAX);
    ListExactly(n, b.forbiddenPaths, 32, true, ITEM_MAX);
    ListExactly(n, b.write, 32, false, ITEM_MAX);
    hide CleanArray, GoodList, CleanedList;
  }

  lemma BudgetExactly(n: Texts, v: Version, b: PlanBudget)
    ensures CanonicalBudget(n, v, b).Fine? <==> GoodBudget(n, v, b)
    ensures CanonicalBudget(n, v, b).Fine? ==> KeepsBudget(n, b, CanonicalBudget(n, v, b).value)
  {
    if b.currency.Some? { TextExactly(n, b.currency.value, 16); }
    hide CleanText, GoodText;
  }

  lemma PolicyExactly(n: Texts, p: GoalPolicy, requirements: map<string, string>)
    ensures CanonicalPolicy(n, p, requirements).Fine? <==> GoodPolicy(n, p, requirements.Keys)
    ensures CanonicalPolicy(n, p, requirements).Fine? ==> KeepsPolicy(n, p, CanonicalPolicy(n, p, requirements).value)
  {
    ListExactly(n, p.refs, 64, true, ITEM_MAX);
    ListExactly(n, p.verifiers, 32, false, 4096);
    ListExactly(n, p.capabilities, 32, true, ITEM_MAX);
    hide CleanArray, GoodList;
  }

  lemma GoalExactly(n: Texts, v: Version, g: PlanGoal, requirements: map<string, string>)
    ensures CanonicalGoal(n, v, g, requirements).Fine? <==> GoodGoal(n, v, g, requirements.Keys)
    ensures CanonicalGoal(n, v, g, requirements).Fine? ==> KeepsGoal(n, g, CanonicalGoal(n, v, g, requirements).value)
  {
    TextExactly(n, g.id, 16);
    if g.policy.Some? { PolicyExactly(n, g.policy.value, requirements); }
    ListExactly(n, g.acceptance, 16, false, ITEM_MAX);
    TextExactly(n, g.objective, ObjectiveMax(v));
    hide CleanText, CleanArray, CanonicalPolicy, GoodText, GoodList, GoodPolicy, KeepsPolicy, CleanedList, IsNumbered;
  }

  lemma {:induction false} GoalsExactly(n: Texts, v: Version, goals: seq<PlanGoal>, requirements: map<string, string>)
    ensures CanonicalGoals(n, v, goals, requirements).Fine?
            <==> forall i :: 0 <= i < |goals| ==> GoodGoal(n, v, goals[i], requirements.Keys)
    ensures CanonicalGoals(n, v, goals, requirements).Fine? ==>
              KeepsGoals(n, goals, CanonicalGoals(n, v, goals, requirements).value)
  {
    hide GoodGoal, KeepsGoal, KeepsGoals, CanonicalGoal, CanonicalGoals;
    if goals == [] {
      NoGoals(n, v, requirements);
    } else {
      var front, last := goals[..|goals| - 1], goals[|goals| - 1];
      GoalsExactly(n, v, front, requirements);
      GoalExactly(n, v, last, requirements);
      GoalsSplit(n, v, goals, requirements);
      assert forall i :: 0 <= i < |front| ==> goals[i] == front[i];
      if CanonicalGoals(n, v, goals, requirements).Fine? {
        GoalsAppend(n, front, CanonicalGoals(n, v, front, requirements).value, last,
                    CanonicalGoal(n, v, last, requirements).value);
        assert front + [last] == goals;
      }
    }
  }

  lemma NoGoals(n: Texts, v: Version, requirements: map<string, string>)
    ensures CanonicalGoals(n, v, [], requirements) == Fine([]) && KeepsGoals(n, [], [])
  {
  }

  lemma GoalsSplit(n: Texts, v: Version, goals: seq<PlanGoal>, requirements: map<string, string>)
    requires goals != []
    ensures var front := CanonicalGoals(n, v, goals[..|goals| - 1], requirements);
            var last := CanonicalGoal(n, v, goals[|goals| - 1], requirements);
            && (CanonicalGoals(n, v, goals, requirements).Fine? <==> front.Fine? && last.Fine?)
            && (front.Fine? && last.Fine? ==>
                  CanonicalGoals(n, v, goals, requirements).value == front.value + [last.value])
  {
    hide CanonicalGoal;
  }

  lemma GoalsAppend(n: Texts, raw: seq<PlanGoal>, goals: seq<PlanGoal>, rawLast: PlanGoal, last: PlanGoal)
    requires KeepsGoals(n, raw, goals) && KeepsGoal(n, rawLast, last)
    ensures KeepsGoals(n, raw + [rawLast], goals + [last])
  {
    hide KeepsGoal;
  }

  lemma {:induction false} SameAttempts(n: Texts, raw: seq<PlanGoal>, goals: seq<PlanGoal>)
    requires KeepsGoals(n, raw, goals)
    ensures WorkerAttempts(goals) == WorkerAttempts(raw)
  {
    if raw != [] { SameAttempts(n, raw[..|raw| - 1], goals[..|goals| - 1]); }
  }

  lemma PlanGoalsExactly(n: Texts, d: Document)
    ensures CanonicalPlanGoals(n, d, d.requirements, d.budget.invocations).Fine? <==> GoodGoals(n, d)
    ensures CanonicalPlanGoals(n, d, d.requirements, d.budget.invocations).Fine? ==>
              KeepsGoals(n, d.goals, CanonicalPlanGoals(n, d, d.requirements, d.budget.invocations).value)
  {
    GoalsExactly(n, d.version, d.goals, d.requirements);
    var goals := CanonicalGoals(n, d.version, d.goals, d.requirements);
    if goals.Fine? {
      SameAttempts(n, d.goals, goals.value);
      IdsRepeat(n, d.goals, goals.value);
    }
    hide CanonicalGoals, GoodGoal, KeepsGoals, WorkerAttempts, NoRepeats;
  }

  lemma IdsRepeat(n: Texts, raw: seq<PlanGoal>, goals: seq<PlanGoal>)
    requires KeepsGoals(n, raw, goals)
    ensures NoRepeats(GoalIds(goals)) <==> forall i, j :: 0 <= i < j < |raw| ==> n.clean(raw[i].id) != n.clean(raw[j].id)
  {
    forall i | 0 <= i < |raw| ensures GoalIds(goals)[i] == n.clean(raw[i].id) { assert KeepsGoal(n, raw[i], goals[i]); }
    hide KeepsGoal;
  }

  lemma RequirementsExactly(n: Texts, requirements: map<string, string>)
    ensures CanonicalRequirements(n, requirements).Fine?
            <==> && |requirements| <= 256
                 && forall r :: r in requirements ==> IsNumbered(r, 'r') && GoodText(n, requirements[r], 8192)
    ensures CanonicalRequirements(n, requirements).Fine? ==>
              KeepsRequirements(n, requirements, CanonicalRequirements(n, requirements).value)
  {
    forall r | r in requirements
      ensures CleanText(n, requirements[r], 8192).Fine? <==> GoodText(n, requirements[r], 8192)
      ensures CleanText(n, requirements[r], 8192).Fine? ==>
                CleanText(n, requirements[r], 8192).value == n.clean(requirements[r])
    {
      TextExactly(n, requirements[r], 8192);
    }
    hide CleanText, GoodText, IsNumbered;
  }

  lemma ProfileExactly(n: Texts, p: Profile)
    ensures CanonicalProfile(n, p).Fine? <==> 1 <= p.timeout <= 30_000 && GoodText(n, p.model, 128)
    ensures CanonicalProfile(n, p).Fine? ==> CanonicalProfile(n, p).value == p.(model := n.clean(p.model))
  {
    TextExactly(n, p.model, 128);
    hide CleanText, GoodText;
  }

  /** Every part of the document has a canonical form, and the parts agree. */
  predicate PartsFine(n: Texts, d: Document) {
    && CanonicalSource(n, d.source).Fine? && CanonicalBoundaries(n, d.boundaries).Fine?
    && CanonicalBudget(n, d.version, d.budget).Fine? && 0 <= d.reorders <= 16 && (!d.adaptive ==> d.reorders == 0)
    && (d.profile.Some? <==> d.version == V2) && (d.version == V1 ==> d.requirements == map[])
    && CanonicalRequirements(n, d.requirements).Fine?
    && (d.profile.Some? ==> CanonicalProfile(n, d.profile.value).Fine?)
    && CleanArray(n, d.completion, 32, false, ITEM_MAX).Fine? && CleanArray(n, d.stops, 16, false, ITEM_MAX).Fine?
    && var goals := CanonicalPlanGoals(n, d, d.requirements, d.budget.invocations);
       && goals.Fine? && goals.value != []
       && CleanText(n, d.objective, ObjectiveMax(d.version)) == Fine(goals.value[0].objective)
  }

  /** The canonical parts, put together. */
  function PartsOf(n: Texts, d: Document): Document
    requires PartsFine(n, d)
  {
    Document(d.version, CanonicalSource(n, d.source).value, CleanText(n, d.objective, ObjectiveMax(d.version)).value,
             CanonicalBoundaries(n, d.boundaries).value, CanonicalBudget(n, d.version, d.budget).value, d.adaptive,
             d.reorders, CleanArray(n, d.completion, 32, false, ITEM_MAX).value,
             CleanArray(n, d.stops, 16, false, ITEM_MAX).value,
             CanonicalPlanGoals(n, d, d.requirements, d.budget.invocations).value,
             CanonicalRequirements(n, d.requirements).value,
             if d.profile.None? then None else Some(CanonicalProfile(n, d.profile.value).value))
  }

  lemma GoalsDependOnKeys(n: Texts, v: Version, goals: seq<PlanGoal>, a: map<string, string>, b: map<string, string>)
    requires a.Keys == b.Keys
    ensures CanonicalGoals(n, v, goals, a) == CanonicalGoals(n, v, goals, b)
  {
    if goals != [] {
      GoalsDependOnKeys(n, v, goals[..|goals| - 1], a, b);
      GoalDependsOnKeys(n, v, goals[|goals| - 1], a, b);
      hide CanonicalGoal;
    }
  }

  lemma GoalDependsOnKeys(n: Texts, v: Version, g: PlanGoal, a: map<string, string>, b: map<string, string>)
    requires a.Keys == b.Keys
    ensures CanonicalGoal(n, v, g, a) == CanonicalGoal(n, v, g, b)
  {
    hide CleanText, CleanArray;
    assert forall r :: r in a <==> r in b by {
      forall r ensures r in a <==> r in b { assert r in a.Keys <==> r in b.Keys; }
    }
  }

  lemma KeptInvocations(n: Texts, v: Version, b: PlanBudget)
    requires CanonicalBudget(n, v, b).Fine?
    ensures CanonicalBudget(n, v, b).value.invocations == b.invocations
  {
    hide CleanText;
  }

  lemma KeptKeys(n: Texts, requirements: map<string, string>)
    requires CanonicalRequirements(n, requirements).Fine?
    ensures CanonicalRequirements(n, requirements).value.Keys == requirements.Keys
  {
    hide CleanText;
  }

  lemma BodyParts(n: Texts, d: Document)
    ensures CanonicalBody(n, d).Fine? <==> PartsFine(n, d)
    ensures PartsFine(n, d) ==> CanonicalBody(n, d).value == PartsOf(n, d)
  {
    hide CanonicalSource, CanonicalBoundaries, CanonicalBudget, CanonicalRequirements, CanonicalProfile, CanonicalGoals,
         CleanText, CleanArray, NoRepeats, WorkerAttempts;
    if CanonicalBudget(n, d.version, d.budget).Fine? { KeptInvocations(n, d.version, d.budget); }
    var requirements := CanonicalRequirements(n, d.requirements);
    if requirements.Fine? {
      KeptKeys(n, d.requirements);
      GoalsDependOnKeys(n, d.version, d.goals, requirements.value, d.requirements);
    }
  }

  lemma PartsAcceptable(n: Texts, d: Document)
    ensures PartsFine(n, d) <==> Acceptable(n, d)
  {
    SourceExactly(n, d.source);
    BoundariesExactly(n, d.boundaries);
    BudgetExactly(n, d.version, d.budget);
    RequirementsExactly(n, d.requirements);
    if d.profile.Some? { ProfileExactly(n, d.profile.value); }
    PlanGoalsExactly(n, d);
    FirstObjective(n, d);
    TextExactly(n, d.objective, ObjectiveMax(d.version));
    ListExactly(n, d.completion, 32, false, ITEM_MAX);
    ListExactly(n, d.stops, 16, false, ITEM_MAX);
    hide CanonicalSource, CanonicalBoundaries, CanonicalBudget, CanonicalRequirements, CanonicalProfile,
         CanonicalPlanGoals, CleanText, CleanArray, GoodText, GoodList, GoodBoundaries, GoodBudget, CleanedList,
         IsNumbered, IsHexDigest, GoodGoals, KeepsGoals, KeepsBoundaries, KeepsBudget, KeepsRequirements;
  }

  lemma FirstObjective(n: Texts, d: Document)
    ensures GoodGoals(n, d) ==>
              var goals := CanonicalPlanGoals(n, d, d.requirements, d.budget.invocations);
              goals.Fine? && d.goals != [] && goals.value != [] && goals.value[0].objective == n.clean(d.goals[0].objective)
  {
    PlanGoalsExactly(n, d);
    hide CanonicalPlanGoals, GoodGoal, WorkerAttempts;
    if GoodGoals(n, d) {
      var goals := CanonicalPlanGoals(n, d, d.requirements, d.budget.invocations).value;
      assert KeepsGoal(n, d.goals[0], goals[0]);
    }
  }

  lemma PartsAreKept(n: Texts, d: Document)
    requires PartsFine(n, d)
    ensures Keeps(n, d, PartsOf(n, d))
  {
    SourceExactly(n, d.source);
    BoundariesExactly(n, d.boundaries);
    BudgetExactly(n, d.version, d.budget);
    RequirementsExactly(n, d.requirements);
    if d.profile.Some? { ProfileExactly(n, d.profile.value); }
    PlanGoalsExactly(n, d);
    TextExactly(n, d.objective, ObjectiveMax(d.version));
    ListExactly(n, d.completion, 32, false, ITEM_MAX);
    ListExactly(n, d.stops, 16, false, ITEM_MAX);
    hide CanonicalSource, CanonicalBoundaries, CanonicalBudget, CanonicalRequirements, CanonicalProfile,
         CanonicalPlanGoals, CleanText, CleanArray, GoodText, GoodList, GoodBoundaries, GoodBudget, CleanedList,
         IsNumbered, IsHexDigest, GoodGoals, KeepsGoals, KeepsBoundaries, KeepsBudget, KeepsRequirements;
  }

  lemma BodyExactly(n: Texts, d: Document)
    ensures CanonicalBody(n, d).Fine? <==> Acceptable(n, d)
    ensures CanonicalBody(n, d).Fine? ==> Keeps(n, d, CanonicalBody(n, d).value)
  {
    BodyParts(n, d);
    PartsAcceptable(n, d);
    if PartsFine(n, d) { PartsAreKept(n, d); }
    hide CanonicalBody, Acceptable, Keeps, PartsFine, PartsOf;
  }

  /** A document has a canonical plan exactly if it is acceptable and the plan fits its size limit, and the plan is the
      document with its texts normalised. */
  lemma CanonicalExactly(n: Texts, encode: Encoder, d: Document, c: Document)
    ensures Canonicalize(n, encode, d) == Fine(c) <==> Acceptable(n, d) && Keeps(n, d, c) && encode(c).Some?
  {
    BodyExactly(n, d);
    if Acceptable(n, d) && Keeps(n, d, c) { KeptIsUnique(n, d, c, CanonicalBody(n, d).value); }
    hide CanonicalBody, Acceptable, Keeps;
  }

  lemma ListIsUnique(n: Texts, raw: seq<string>, a: seq<string>, b: seq<string>)
    requires CleanedList(n, raw, a) && CleanedList(n, raw, b)
    ensures a == b
  {
  }

  lemma PolicyIsUnique(n: Texts, raw: GoalPolicy, a: GoalPolicy, b: GoalPolicy)
    requires KeepsPolicy(n, raw, a) && KeepsPolicy(n, raw, b)
    ensures a == b
  {
    ListIsUnique(n, raw.capabilities, a.capabilities, b.capabilities);
    ListIsUnique(n, raw.refs, a.refs, b.refs);
    ListIsUnique(n, raw.verifiers, a.verifiers, b.verifiers);
    hide CleanedList;
  }

  lemma GoalIsUnique(n: Texts, raw: PlanGoal, a: PlanGoal, b: PlanGoal)
    requires KeepsGoal(n, raw, a) && KeepsGoal(n, raw, b)
    ensures a == b
  {
    ListIsUnique(n, raw.acceptance, a.acceptance, b.acceptance);
    if raw.policy.Some? { PolicyIsUnique(n, raw.policy.value, a.policy.value, b.policy.value); }
    hide CleanedList, KeepsPolicy;
  }

  lemma GoalsAreUnique(n: Texts, raw: seq<PlanGoal>, a: seq<PlanGoal>, b: seq<PlanGoal>)
    requires KeepsGoals(n, raw, a) && KeepsGoals(n, raw, b)
    ensures a == b
  {
    forall i | 0 <= i < |raw| ensures a[i] == b[i] { GoalIsUnique(n, raw[i], a[i], b[i]); }
    hide KeepsGoal;
  }

  lemma BoundariesAreUnique(n: Texts, raw: Boundaries, a: Boundaries, b: Boundaries)
    requires KeepsBoundaries(n, raw, a) && KeepsBoundaries(n, raw, b)
    ensures a == b
  {
    ListIsUnique(n, raw.write, a.write, b.write);
    ListIsUnique(n, raw.forbiddenPaths, a.forbiddenPaths, b.forbiddenPaths);
    ListIsUnique(n, raw.forbiddenActions, a.forbiddenActions, b.forbiddenActions);
    ListIsUnique(n, raw.external, a.external, b.external);
    hide CleanedList;
  }

  lemma RequirementsAreUnique(n: Texts, raw: map<string, string>, a: map<string, string>, b: map<string, string>)
    requires KeepsRequirements(n, raw, a) && KeepsRequirements(n, raw, b)
    ensures a == b
  {
    forall r | r in raw ensures r in a && r in b && a[r] == b[r] { assert r in a.Keys && r in b.Keys; }
  }

  /** Normalising the texts leaves no choice. */
  lemma KeptIsUnique(n: Texts, d: Document, a: Document, b: Document)
    requires Keeps(n, d, a) && Keeps(n, d, b)
    ensures a == b
  {
    BoundariesAreUnique(n, d.boundaries, a.boundaries, b.boundaries);
    ListIsUnique(n, d.completion, a.completion, b.completion);
    ListIsUnique(n, d.stops, a.stops, b.stops);
    GoalsAreUnique(n, d.goals, a.goals, b.goals);
    RequirementsAreUnique(n, d.requirements, a.requirements, b.requirements);
    hide KeepsBoundaries, CleanedList, KeepsGoals, KeepsRequirements;
  }

  /** Stored bytes are accepted exactly if they are the encoding of a plan that is acceptable and normalised. */
  lemma ParsedExactly(n: Texts, encode: Encoder, decode: string -> Option<Document>, raw: string, d: Document)
    requires RoundTrips(encode, decode)
    ensures ParsePlan(n, encode, decode, raw) == Fine(d)
            <==> Acceptable(n, d) && Keeps(n, d, d) && encode(d) == Some(raw)
  {
    ParsedPlansAreFixpoints(n, encode, decode, raw, d);
    CanonicalExactly(n, encode, d, d);
    hide Canonicalize, ParsePlan, Acceptable, Keeps;
  }
}
