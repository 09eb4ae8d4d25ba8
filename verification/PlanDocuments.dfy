/** Canonical plans: what canonicalising a plan document accepts, and that it is a fixpoint.

    Text normalisation, byte lengths, case mapping and timestamps are parameters; the closed shapes and enumerations of
    the documents are the datatypes. */
module PlanDocuments {
  import opened Base
  import opened Records

  datatype CodecError = PreparationInvalid | LimitExceeded

  datatype Canon<+T> = Fine(value: T) | Wrong(error: CodecError) {
    predicate IsFailure() { Wrong? }
    function PropagateFailure<U>(): Canon<U> requires Wrong? { Wrong(error) }
    function Extract(): T requires Fine? { value }
  }

  /** `clean` is newline unification, NFC and strip; `size` the number of UTF-8 bytes; `upper` case mapping; `due`
      whether a time gate names a moment with a time zone. */
  datatype Texts = Texts(clean: string -> string, size: string -> nat, upper: string -> string, due: string -> bool)

  /** Normalising is idempotent and leaves nothing to strip. */
  ghost predicate Lawful(n: Texts) { forall s :: n.clean(n.clean(s)) == n.clean(s) && Strip(n.clean(s)) == n.clean(s) }

  // Documents --------------------------------------------------------------------------------------------------

  datatype Version = V1 | V2

  datatype SourceKind = LiteralText | PastedText | AuthorizedFile | ExpertJson | CanonicalJson

  datatype Source = Source(kind: SourceKind, digest: string, contentRetained: bool)

  datatype Boundaries = Boundaries(
    write: seq<string>, forbiddenPaths: seq<string>, forbiddenActions: seq<string>, external: seq<string>, destructive: bool)

  datatype PlanBudget = PlanBudget(seconds: int, invocations: int, cost: int, currency: Option<string>)

  datatype Gate = WorkerGate | HumanGate | TimeGate

  datatype Recovery = ResumeRun | Reconcile | AskHuman

  datatype OnFailure = RepairIt | WaitForIt | FailIt

  datatype Replay = FileLocal | Idempotent | NonReplayable

  datatype GoalPolicy = GoalPolicy(
    capabilities: seq<string>, gate: Gate, maxAttempts: int, skipWhenBlocked: bool, onFailure: OnFailure,
    recovery: Recovery, replay: Replay, requirement: Requirement, refs: seq<string>, verifiers: seq<string>)

  datatype PlanGoal = PlanGoal(id: string, objective: string, acceptance: seq<string>, policy: Option<GoalPolicy>)

  datatype Effort = Low | Medium | High | XHigh | Max

  datatype Profile = Profile(timeout: int, localVerification: bool, model: string, network: bool, effort: Effort)

  /** `policy` and `profile` are present exactly in version 2 documents. */
  datatype Document = Document(
    version: Version, source: Source, objective: string, boundaries: Boundaries, budget: PlanBudget, adaptive: bool,
    reorders: int, completion: seq<string>, stops: seq<string>, goals: seq<PlanGoal>,
    requirements: map<string, string>, profile: Option<Profile>)

  /** Whether a document, canonically encoded, fits its size limit. */
  type Encoder = Document -> Option<string>

  // Fields -----------------------------------------------------------------------------------------------------

  /** A check that carries no value, for use with `:-`. */
  datatype Guard = Holds | Fails(error: CodecError) {
    predicate IsFailure() { Fails? }
    function PropagateFailure<U>(): Canon<U> requires Fails? { Wrong(error) }
  }

  function NeedFine(condition: bool, error: CodecError): Guard { if condition then Holds else Fails(error) }

  /** `_text` */
  function CleanText(n: Texts, value: string, maximum: nat): Canon<string> {
    var t := n.clean(value);
    if t == "" || '\0' in t then Wrong(PreparationInvalid)
    else if n.size(t) > maximum then Wrong(LimitExceeded)
    else Fine(t)
  }

  function CleanAll(n: Texts, values: seq<string>, maximum: nat): (r: Canon<seq<string>>)
    ensures r.Fine? ==> |r.value| == |values|
  {
    if values == [] then Fine([])
    else
      var front :- CleanAll(n, values[..|values| - 1], maximum);
      var last :- CleanText(n, values[|values| - 1], maximum);
      Fine(front + [last])
  }

  /** `_string_array` */
  function CleanArray(n: Texts, values: seq<string>, items: nat, allowEmpty: bool, maximum: nat): Canon<seq<string>> {
    if |values| > items then Wrong(LimitExceeded)
    else if !allowEmpty && values == [] then Wrong(PreparationInvalid)
    else
      var cleaned :- CleanAll(n, values, maximum);
      if NoRepeats(cleaned) then Fine(cleaned) else Wrong(PreparationInvalid)
  }

  function Bounded(value: int, low: int, high: int): Canon<int> {
    if low <= value <= high then Fine(value) else Wrong(LimitExceeded)
  }

  predicate IsDigit(c: char) { '0' <= c <= '9' }

  /** `[letter][0-9]{3}` */
  predicate IsNumbered(id: string, letter: char) {
    |id| == 4 && id[0] == letter && IsDigit(id[1]) && IsDigit(id[2]) && IsDigit(id[3])
  }

  predicate IsHexDigest(t: string) { |t| == 64 && forall i :: 0 <= i < |t| ==> IsHex(t[i]) }

  const ITEM_MAX := 1024

  function ObjectiveMax(v: Version): nat { match v case V1 => 2048 case V2 => 8192 }

  function CanonicalSource(n: Texts, s: Source): Canon<Source> {
    var digest :- CleanText(n, s.digest, 64);
    if !IsHexDigest(digest) || s.contentRetained then Wrong(PreparationInvalid) else Fine(s.(digest := digest))
  }

  function CanonicalBoundaries(n: Texts, b: Boundaries): Canon<Boundaries> {
    var external :- CleanArray(n, b.external, 16, true, ITEM_MAX);
    var actions :- CleanArray(n, b.forbiddenActions, 16, true, ITEM_MAX);
    var paths :- CleanArray(n, b.forbiddenPaths, 32, true, ITEM_MAX);
    var write :- CleanArray(n, b.write, 32, false, ITEM_MAX);
    Fine(Boundaries(write, paths, actions, external, b.destructive))
  }

  /** The currency is normalised and then upper-cased, in that order. */
  function CanonicalCurrency(n: Texts, currency: Option<string>): Canon<Option<string>> {
    if currency.None? then Fine(None)
    else
      var text :- CleanText(n, currency.value, 16);
      Fine(Some(n.upper(text)))
  }

  function CanonicalBudget(n: Texts, v: Version, b: PlanBudget): Canon<PlanBudget> {
    var currency :- CanonicalCurrency(n, b.currency);
    var cost :- Bounded(b.cost, 0, 0x7fff_ffff_ffff_ffff);
    var invocations :- if v == V1 then Bounded(b.invocations, 0, 1_000_000) else Bounded(b.invocations, 1, 384);
    var seconds :- Bounded(b.seconds, 1, if v == V1 then 31_536_000 else 2_592_000);
    if cost != 0 && currency.None? then Wrong(PreparationInvalid)
    else Fine(PlanBudget(seconds, invocations, cost, currency))
  }

  function CanonicalPolicy(n: Texts, p: GoalPolicy, requirements: map<string, string>): Canon<GoalPolicy> {
    var refs :- CleanArray(n, p.refs, 64, true, ITEM_MAX);
    :- NeedFine(forall i :: 0 <= i < |refs| ==> refs[i] in requirements, PreparationInvalid);
    :- NeedFine(!(p.requirement == Required && p.skipWhenBlocked), PreparationInvalid);
    :- NeedFine(p.gate != WorkerGate ==> p.recovery == AskHuman, PreparationInvalid);
    var verifiers :- CleanArray(n, p.verifiers, 32, false, 4096);
    :- NeedFine(p.gate == HumanGate ==> verifiers == ["human-approval"], PreparationInvalid);
    :- NeedFine(p.gate == TimeGate ==> |verifiers| == 1 && n.due(verifiers[0]), PreparationInvalid);
    var capabilities :- CleanArray(n, p.capabilities, 32, true, ITEM_MAX);
    var attempts :- Bounded(p.maxAttempts, 1, 3);
    Fine(p.(capabilities := capabilities, maxAttempts := attempts, refs := refs, verifiers := verifiers))
  }

  function CanonicalGoal(n: Texts, v: Version, g: PlanGoal, requirements: map<string, string>): Canon<PlanGoal> {
    var id :- CleanText(n, g.id, 16);
    :- NeedFine(IsNumbered(id, 'g') && (g.policy.Some? <==> v == V2), PreparationInvalid);
    var policy :- if g.policy.None? then Fine(None) else
                    var p :- CanonicalPolicy(n, g.policy.value, requirements);
                    Fine(Some(p));
    var acceptance :- CleanArray(n, g.acceptance, 16, false, ITEM_MAX);
    var objective :- CleanText(n, g.objective, ObjectiveMax(v));
    Fine(PlanGoal(id, objective, acceptance, policy))
  }

  function CanonicalGoals(n: Texts, v: Version, goals: seq<PlanGoal>, requirements: map<string, string>)
    : (r: Canon<seq<PlanGoal>>)
    ensures r.Fine? ==> |r.value| == |goals|
  {
    if goals == [] then Fine([])
    else
      var front :- CanonicalGoals(n, v, goals[..|goals| - 1], requirements);
      var last :- CanonicalGoal(n, v, goals[|goals| - 1], requirements);
      Fine(front + [last])
  }

  function CanonicalRequirements(n: Texts, requirements: map<string, string>): Canon<map<string, string>> {
    if |requirements| > 256 then Wrong(LimitExceeded)
    else if exists r :: r in requirements && (!IsNumbered(r, 'r') || CleanText(n, requirements[r], 8192).Wrong?) then
      Wrong(PreparationInvalid)
    else Fine(map r | r in requirements :: CleanText(n, requirements[r], 8192).value)
  }

  function CanonicalProfile(n: Texts, p: Profile): Canon<Profile> {
    var timeout :- Bounded(p.timeout, 1, 30_000);
    var model :- CleanText(n, p.model, 128);
    Fine(p.(timeout := timeout, model := model))
  }

  // Documents --------------------------------------------------------------------------------------------------

  function GoalIds(goals: seq<PlanGoal>): (ids: seq<string>)
    ensures |ids| == |goals| && forall i :: 0 <= i < |ids| ==> ids[i] == goals[i].id
  {
    seq(|goals|, i requires 0 <= i < |goals| => goals[i].id)
  }

  /** Attempts of the goals that a worker runs. */
  function WorkerAttempts(goals: seq<PlanGoal>): int {
    if goals == [] then 0
    else
      var last := goals[|goals| - 1];
      WorkerAttempts(goals[..|goals| - 1])
      + if last.policy.Some? && last.policy.value.gate == WorkerGate then last.policy.value.maxAttempts else 0
  }

  function GoalMax(v: Version): nat { match v case V1 => 32 case V2 => 128 }

  /** The goals of a document, canonical and consistent with its other parts. */
  function CanonicalPlanGoals(n: Texts, d: Document, requirements: map<string, string>, invocations: int)
    : Canon<seq<PlanGoal>>
  {
    if !(1 <= |d.goals| <= GoalMax(d.version)) then Wrong(LimitExceeded)
    else
      var goals :- CanonicalGoals(n, d.version, d.goals, requirements);
      if !NoRepeats(GoalIds(goals)) || (d.version == V2 && invocations < WorkerAttempts(goals)) then
        Wrong(PreparationInvalid)
      else Fine(goals)
  }

  /** `canonicalize_plan` before the size check. */
  function CanonicalBody(n: Texts, d: Document): Canon<Document> {
    var source :- CanonicalSource(n, d.source);
    var boundaries :- CanonicalBoundaries(n, d.boundaries);
    var budget :- CanonicalBudget(n, d.version, d.budget);
    var reorders :- Bounded(d.reorders, 0, 16);
    :- NeedFine(!d.adaptive ==> reorders == 0, PreparationInvalid);
    :- NeedFine((d.profile.Some? <==> d.version == V2) && (d.version == V1 ==> d.requirements == map[]), PreparationInvalid);
    var requirements :- CanonicalRequirements(n, d.requirements);
    var profile :- if d.profile.None? then Fine(None) else
                     var p :- CanonicalProfile(n, d.profile.value);
                     Fine(Some(p));
    var goals :- CanonicalPlanGoals(n, d, requirements, budget.invocations);
    var objective :- CleanText(n, d.objective, ObjectiveMax(d.version));
    :- NeedFine(goals != [] && objective == goals[0].objective, PreparationInvalid);
    var completion :- CleanArray(n, d.completion, 32, false, ITEM_MAX);
    var stops :- CleanArray(n, d.stops, 16, false, ITEM_MAX);
    Fine(Document(d.version, source, objective, boundaries, budget, d.adaptive, reorders, completion, stops, goals,
                  requirements, profile))
  }

  /** `canonicalize_plan` */
  function Canonicalize(n: Texts, encode: Encoder, d: Document): Canon<Document> {
    var body :- CanonicalBody(n, d);
    if encode(body).None? then Wrong(LimitExceeded) else Fine(body)
  }

  // Fixpoints --------------------------------------------------------------------------------------------------

  lemma CleanTextAgain(n: Texts, value: string, maximum: nat)
    requires Lawful(n) && CleanText(n, value, maximum).Fine?
    ensures CleanText(n, CleanText(n, value, maximum).value, maximum) == CleanText(n, value, maximum)
  {
  }

  lemma {:induction false} CleanAllAgain(n: Texts, values: seq<string>, maximum: nat)
    requires Lawful(n) && CleanAll(n, values, maximum).Fine?
    ensures CleanAll(n, CleanAll(n, values, maximum).value, maximum) == CleanAll(n, values, maximum)
  {
    if values != [] {
      var front := values[..|values| - 1];
      CleanAllAgain(n, front, maximum);
      CleanTextAgain(n, values[|values| - 1], maximum);
      var all := CleanAll(n, values, maximum).value;
      assert all[..|all| - 1] == CleanAll(n, front, maximum).value;
    }
  }

  lemma CleanArrayAgain(n: Texts, values: seq<string>, items: nat, allowEmpty: bool, maximum: nat)
    requires Lawful(n) && CleanArray(n, values, items, allowEmpty, maximum).Fine?
    ensures var r := CleanArray(n, values, items, allowEmpty, maximum);
            CleanArray(n, r.value, items, allowEmpty, maximum) == r
  {
    CleanAllAgain(n, values, maximum);
    hide CleanAll, NoRepeats, Lawful;
  }

  lemma SourceAgain(n: Texts, s: Source)
    requires Lawful(n) && CanonicalSource(n, s).Fine?
    ensures CanonicalSource(n, CanonicalSource(n, s).value) == CanonicalSource(n, s)
  {
    CleanTextAgain(n, s.digest, 64);
    hide CleanText, IsHexDigest, Lawful;
  }

  lemma BoundariesAgain(n: Texts, b: Boundaries)
    requires Lawful(n) && CanonicalBoundaries(n, b).Fine?
    ensures CanonicalBoundaries(n, CanonicalBoundaries(n, b).value) == CanonicalBoundaries(n, b)
  {
    CleanArrayAgain(n, b.external, 16, true, ITEM_MAX);
    CleanArrayAgain(n, b.forbiddenActions, 16, true, ITEM_MAX);
    CleanArrayAgain(n, b.forbiddenPaths, 32, true, ITEM_MAX);
    CleanArrayAgain(n, b.write, 32, false, ITEM_MAX);
    hide CleanArray, Lawful;
  }

  /** Upper-casing the normalised currency gives something that normalising and upper-casing leaves alone. */
  predicate CurrencySettles(n: Texts, currency: Option<string>) {
    currency.Some? ==>
      CleanText(n, currency.value, 16).Fine? && n.upper(CleanText(n, currency.value, 16).value) == currency.value
  }

  lemma BudgetAgain(n: Texts, v: Version, b: PlanBudget)
    requires CanonicalBudget(n, v, b).Fine?
    ensures var c := CanonicalBudget(n, v, b).value;
            CanonicalBudget(n, v, c) == Fine(c) <==> CurrencySettles(n, c.currency)
  {
    hide CleanText;
  }

  lemma PolicyAgain(n: Texts, p: GoalPolicy, raw: map<string, string>, requirements: map<string, string>)
    requires Lawful(n) && CanonicalPolicy(n, p, raw).Fine? && requirements.Keys == raw.Keys
    ensures CanonicalPolicy(n, CanonicalPolicy(n, p, raw).value, requirements) == CanonicalPolicy(n, p, raw)
  {
    CleanArrayAgain(n, p.refs, 64, true, ITEM_MAX);
    CleanArrayAgain(n, p.verifiers, 32, false, 4096);
    CleanArrayAgain(n, p.capabilities, 32, true, ITEM_MAX);
    hide CleanArray, Lawful;
  }

  lemma GoalAgain(n: Texts, v: Version, g: PlanGoal, raw: map<string, string>, requirements: map<string, string>)
    requires Lawful(n) && CanonicalGoal(n, v, g, raw).Fine? && requirements.Keys == raw.Keys
    ensures CanonicalGoal(n, v, CanonicalGoal(n, v, g, raw).value, requirements) == CanonicalGoal(n, v, g, raw)
  {
    CleanTextAgain(n, g.id, 16);
    if g.policy.Some? { PolicyAgain(n, g.policy.value, raw, requirements); }
    CleanArrayAgain(n, g.acceptance, 16, false, ITEM_MAX);
    CleanTextAgain(n, g.objective, ObjectiveMax(v));
    hide CleanArray, CleanText, CanonicalPolicy, Lawful, IsNumbered;
  }

  lemma {:induction false} GoalsAgain(
    n: Texts, v: Version, goals: seq<PlanGoal>, raw: map<string, string>, requirements: map<string, string>)
    requires Lawful(n) && CanonicalGoals(n, v, goals, raw).Fine? && requirements.Keys == raw.Keys
    ensures CanonicalGoals(n, v, CanonicalGoals(n, v, goals, raw).value, requirements) == CanonicalGoals(n, v, goals, raw)
  {
    if goals != [] {
      var front := goals[..|goals| - 1];
      GoalsAgain(n, v, front, raw, requirements);
      GoalAgain(n, v, goals[|goals| - 1], raw, requirements);
      var all := CanonicalGoals(n, v, goals, raw).value;
      assert all[..|all| - 1] == CanonicalGoals(n, v, front, raw).value;
      hide CanonicalGoal, Lawful;
    }
  }

  lemma RequirementsAgain(n: Texts, requirements: map<string, string>)
    requires Lawful(n) && CanonicalRequirements(n, requirements).Fine?
    ensures var r := CanonicalRequirements(n, requirements).value;
            CanonicalRequirements(n, r) == Fine(r) && r.Keys == requirements.Keys
  {
    var r := CanonicalRequirements(n, requirements).value;
    assert r.Keys == requirements.Keys;
    assert |r.Keys| == |r| && |requirements.Keys| == |requirements|;
    forall k | k in r ensures CleanText(n, r[k], 8192) == Fine(r[k]) { CleanTextAgain(n, requirements[k], 8192); }
    hide CleanText, Lawful, IsNumbered;
    assert (map k | k in r :: CleanText(n, r[k], 8192).value) == r;
  }

  lemma ProfileAgain(n: Texts, p: Profile)
    requires Lawful(n) && CanonicalProfile(n, p).Fine?
    ensures CanonicalProfile(n, CanonicalProfile(n, p).value) == CanonicalProfile(n, p)
  {
    CleanTextAgain(n, p.model, 128);
    hide CleanText, Lawful;
  }

  lemma PlanGoalsAgain(n: Texts, d: Document, c: Document, raw: map<string, string>, requirements: map<string, string>)
    requires Lawful(n) && CanonicalPlanGoals(n, d, raw, c.budget.invocations) == Fine(c.goals)
    requires c.version == d.version && requirements.Keys == raw.Keys
    ensures CanonicalPlanGoals(n, c, requirements, c.budget.invocations) == Fine(c.goals)
  {
    GoalsAgain(n, d.version, d.goals, raw, requirements);
    hide CanonicalGoals, Lawful, WorkerAttempts, NoRepeats;
  }

  /** Canonicalising a canonical plan returns the same plan exactly when upper-casing its currency has settled. */
  lemma CanonicalIsFixpoint(n: Texts, encode: Encoder, d: Document)
    requires Lawful(n) && Canonicalize(n, encode, d).Fine?
    ensures var c := Canonicalize(n, encode, d).value;
            Canonicalize(n, encode, c) == Fine(c) <==> CurrencySettles(n, c.budget.currency)
  {
    var c := Canonicalize(n, encode, d).value;
    BodyAgain(n, d);
    hide CanonicalBody, Lawful, CurrencySettles;
  }

  /** Every part but the budget is canonical already. */
  predicate SettledParts(n: Texts, c: Document) {
    && CanonicalSource(n, c.source) == Fine(c.source) && CanonicalBoundaries(n, c.boundaries) == Fine(c.boundaries)
    && 0 <= c.reorders <= 16 && (!c.adaptive ==> c.reorders == 0)
    && (c.profile.Some? <==> c.version == V2) && (c.version == V1 ==> c.requirements == map[])
    && CanonicalRequirements(n, c.requirements) == Fine(c.requirements)
    && (c.profile.Some? ==> CanonicalProfile(n, c.profile.value) == Fine(c.profile.value))
    && CanonicalPlanGoals(n, c, c.requirements, c.budget.invocations) == Fine(c.goals)
    && CleanText(n, c.objective, ObjectiveMax(c.version)) == Fine(c.objective)
    && c.goals != [] && c.objective == c.goals[0].objective
    && CleanArray(n, c.completion, 32, false, ITEM_MAX) == Fine(c.completion)
    && CleanArray(n, c.stops, 16, false, ITEM_MAX) == Fine(c.stops)
  }

  lemma BodyHead(n: Texts, d: Document)
    requires CanonicalBody(n, d).Fine?
    ensures var c := CanonicalBody(n, d).value;
            && c.version == d.version && c.adaptive == d.adaptive && CanonicalSource(n, d.source) == Fine(c.source)
            && CanonicalBoundaries(n, d.boundaries) == Fine(c.boundaries)
            && CanonicalBudget(n, d.version, d.budget) == Fine(c.budget)
            && 0 <= c.reorders <= 16 && (!c.adaptive ==> c.reorders == 0)
            && CanonicalRequirements(n, d.requirements) == Fine(c.requirements)
            && (d.profile.Some? <==> c.profile.Some?) && (d.profile.Some? <==> d.version == V2)
            && (d.version == V1 ==> d.requirements == map[])
            && (d.profile.Some? ==> CanonicalProfile(n, d.profile.value) == Fine(c.profile.value))
  {
    hide CanonicalSource, CanonicalBoundaries, CanonicalBudget, CanonicalRequirements, CanonicalProfile,
         CanonicalPlanGoals, CleanText, CleanArray;
  }

  lemma HeadAgain(n: Texts, d: Document)
    requires Lawful(n) && CanonicalBody(n, d).Fine?
    ensures var c := CanonicalBody(n, d).value;
            && CanonicalSource(n, c.source) == Fine(c.source) && CanonicalBoundaries(n, c.boundaries) == Fine(c.boundaries)
            && (c.version == V1 ==> c.requirements == map[])
            && CanonicalRequirements(n, c.requirements) == Fine(c.requirements)
            && (c.profile.Some? ==> CanonicalProfile(n, c.profile.value) == Fine(c.profile.value))
  {
    BodyHead(n, d);
    hide CanonicalSource, CanonicalBoundaries, CanonicalBudget, CanonicalRequirements, CanonicalProfile, CanonicalBody,
         Lawful;
    SourceAgain(n, d.source);
    BoundariesAgain(n, d.boundaries);
    RequirementsAgain(n, d.requirements);
    assert d.requirements == map[] ==> CanonicalBody(n, d).value.requirements.Keys == {};
    if d.profile.Some? { ProfileAgain(n, d.profile.value); }
  }

  lemma TailAgain(n: Texts, d: Document)
    requires Lawful(n) && CanonicalBody(n, d).Fine?
    ensures var c := CanonicalBody(n, d).value;
            && CanonicalPlanGoals(n, c, c.requirements, c.budget.invocations) == Fine(c.goals)
            && CleanText(n, c.objective, ObjectiveMax(c.version)) == Fine(c.objective)
            && c.goals != [] && c.objective == c.goals[0].objective
            && CleanArray(n, c.completion, 32, false, ITEM_MAX) == Fine(c.completion)
            && CleanArray(n, c.stops, 16, false, ITEM_MAX) == Fine(c.stops)
  {
    var c := CanonicalBody(n, d).value;
    CleanTextAgain(n, d.objective, ObjectiveMax(d.version));
    CleanArrayAgain(n, d.completion, 32, false, ITEM_MAX);
    CleanArrayAgain(n, d.stops, 16, false, ITEM_MAX);
    hide CanonicalSource, CanonicalBoundaries, CanonicalBudget, CanonicalRequirements, CanonicalProfile,
         CanonicalPlanGoals, CleanText, CleanArray, Lawful;
    PlanGoalsAgain(n, d, c, c.requirements, c.requirements);
  }

  lemma SettledBody(n: Texts, c: Document)
    requires SettledParts(n, c)
    ensures CanonicalBody(n, c) == Fine(c) <==> CanonicalBudget(n, c.version, c.budget) == Fine(c.budget)
  {
    hide CanonicalSource, CanonicalBoundaries, CanonicalBudget, CanonicalRequirements, CanonicalProfile,
         CanonicalPlanGoals, CleanText, CleanArray;
  }

  lemma BodyAgain(n: Texts, d: Document)
    requires Lawful(n) && CanonicalBody(n, d).Fine?
    ensures var c := CanonicalBody(n, d).value;
            CanonicalBody(n, c) == Fine(c) <==> CurrencySettles(n, c.budget.currency)
  {
    hide CanonicalSource, CanonicalBoundaries, CanonicalBudget, CanonicalRequirements, CanonicalProfile,
         CanonicalPlanGoals, CleanText, CleanArray, Lawful, CurrencySettles, CanonicalBody;
    BodyHead(n, d);
    HeadAgain(n, d);
    TailAgain(n, d);
    SettledBody(n, CanonicalBody(n, d).value);
    BudgetAgain(n, d.version, d.budget);
  }

  // Stored plans -----------------------------------------------------------------------------------------------

  /** `parse_plan_bytes`, given JSON decoding: accepts bytes that are the encoding of what they canonicalise to. */
  function ParsePlan(n: Texts, encode: Encoder, decode: string -> Option<Document>, raw: string): Canon<Document> {
    if decode(raw).None? then Wrong(PreparationInvalid)
    else
      var plan :- Canonicalize(n, encode, decode(raw).value);
      if encode(plan) == Some(raw) then Fine(plan) else Wrong(PreparationInvalid)
  }

  /** Decoding inverts encoding. */
  ghost predicate RoundTrips(encode: Encoder, decode: string -> Option<Document>) {
    forall d :: encode(d).Some? ==> decode(encode(d).value) == Some(d)
  }

  /** Only encodings of fixpoints are accepted, and every fixpoint that can be encoded is. */
  lemma ParsedPlansAreFixpoints(n: Texts, encode: Encoder, decode: string -> Option<Document>, raw: string, d: Document)
    requires RoundTrips(encode, decode)
    ensures ParsePlan(n, encode, decode, raw) == Fine(d)
            <==> Canonicalize(n, encode, d) == Fine(d) && encode(d) == Some(raw)
  {
    hide CanonicalBody;
  }

  // ASCII currencies -------------------------------------------------------------------------------------------

  predicate IsAscii(t: string) { forall i :: 0 <= i < |t| ==> t[i] < 128 as char }

  function UpperChar(c: char): char { if 'a' <= c <= 'z' then c - 32 as char else c }

  function AsciiUpper(t: string): string { seq(|t|, i requires 0 <= i < |t| => UpperChar(t[i])) }

  /** `value.replace("\r\n", "\n").replace("\r", "\n")` */
  function Unified(t: string): string {
    if t == "" then ""
    else if t[0] != '\r' then [t[0]] + Unified(t[1..])
    else ['\n'] + Unified(if |t| > 1 && t[1] == '\n' then t[2..] else t[1..])
  }

  /** What NFC, UTF-8 and `str.upper` do to ASCII text; no normalised text has a carriage return. */
  ghost predicate AsciiLaws(n: Texts) {
    && (forall s :: IsAscii(s) ==> n.upper(s) == AsciiUpper(s) && n.size(s) == |s|)
    && (forall s :: IsAscii(s) ==> n.clean(s) == Strip(Unified(s)))
    && (forall s :: '\r' !in n.clean(s))
  }

  lemma {:induction false} UnifiedKeeps(t: string)
    requires '\r' !in t
    ensures Unified(t) == t
  {
    if t != "" {
      assert t[0] in t && forall c :: c in t[1..] ==> c in t;
      UnifiedKeeps(t[1..]);
    }
  }

  lemma {:induction false} UnifiedHasNoReturn(t: string)
    ensures '\r' !in Unified(t)
    decreases |t|
  {
    if t != "" { UnifiedHasNoReturn(if t[0] == '\r' && |t| > 1 && t[1] == '\n' then t[2..] else t[1..]); }
  }

  lemma {:induction false} StripKeepsOut(t: string, c: char)
    requires c !in t
    ensures c !in Strip(t)
    decreases |t|
  {
    if t != "" && IsSpace(t[0]) {
      StripKeepsOut(t[1..], c);
    } else if t != "" && IsSpace(t[|t| - 1]) {
      StripKeepsOut(t[..|t| - 1], c);
    }
  }

  lemma {:induction false} StripsOnce(t: string)
    ensures Strip(Strip(t)) == Strip(t)
    decreases |t|
  {
    if t != "" && IsSpace(t[0]) {
      StripsOnce(t[1..]);
    } else if t != "" && IsSpace(t[|t| - 1]) {
      StripsOnce(t[..|t| - 1]);
    }
  }

  lemma StrippedIsPlain(t: string)
    ensures var u := Strip(Unified(t)); Strip(Unified(u)) == u && Strip(u) == u && '\r' !in u
  {
    hide Strip, Unified;
    UnifiedHasNoReturn(t);
    StripKeepsOut(Unified(t), '\r');
    StripsOnce(Unified(t));
    UnifiedKeeps(Strip(Unified(t)));
  }

  /** Unifying line breaks and stripping, without NFC, is a normaliser that meets all laws: they ask for nothing that the
      program does not do to ASCII text. */
  lemma LawsAreMet(due: string -> bool)
    ensures var n := Texts((s: string) => Strip(Unified(s)), (s: string) => |s|, (s: string) => AsciiUpper(s), due);
            Lawful(n) && AsciiLaws(n)
  {
    hide Strip, Unified, AsciiUpper, IsAscii;
    forall s ensures var u := Strip(Unified(s)); Strip(Unified(u)) == u && Strip(u) == u && '\r' !in u {
      StrippedIsPlain(s);
    }
  }

  lemma UpperStaysStripped(t: string)
    requires Strip(t) == t
    ensures Strip(AsciiUpper(t)) == AsciiUpper(t)
  {
    if t != "" {
      StripIsShorter(t[1..]);
      StripIsShorter(t[..|t| - 1]);
    }
  }

  lemma {:induction false} StripIsShorter(t: string)
    ensures |Strip(t)| <= |t|
  {
    if t != "" {
      StripIsShorter(t[1..]);
      StripIsShorter(t[..|t| - 1]);
    }
  }

  /** An ASCII currency settles at once, so a plan with an ASCII currency, or none, canonicalises to a fixpoint. */
  lemma AsciiCurrencySettles(n: Texts, encode: Encoder, d: Document)
    requires Lawful(n) && AsciiLaws(n) && Canonicalize(n, encode, d).Fine?
    requires d.budget.currency.Some? ==> IsAscii(n.clean(d.budget.currency.value))
    ensures Canonicalize(n, encode, Canonicalize(n, encode, d).value) == Canonicalize(n, encode, d)
  {
    hide CanonicalBody, AsciiLaws, Lawful, IsAscii, CurrencySettles;
    BodyBudget(n, d);
    if d.budget.currency.Some? { AsciiSettles(n, d.budget.currency.value); }
    assert CurrencySettles(n, None) by { EmptySettles(n); }
    CanonicalIsFixpoint(n, encode, d);
  }

  lemma EmptySettles(n: Texts)
    ensures CurrencySettles(n, None)
  {
  }

  lemma AsciiSettles(n: Texts, currency: string)
    requires Lawful(n) && AsciiLaws(n) && IsAscii(n.clean(currency)) && CleanText(n, currency, 16).Fine?
    ensures CurrencySettles(n, Some(n.upper(CleanText(n, currency, 16).value)))
  {
    var text := n.clean(currency);
    UpperStaysStripped(text);
    var upper := AsciiUpper(text);
    assert n.upper(text) == upper && n.size(text) == |text|;
    UpperIsPlain(text);
    UnifiedKeeps(upper);
    assert n.clean(upper) == upper && n.upper(upper) == AsciiUpper(upper) && n.size(upper) == |upper|;
  }

  lemma UpperIsPlain(text: string)
    requires IsAscii(text) && '\r' !in text && '\0' !in text
    ensures var upper := AsciiUpper(text);
            IsAscii(upper) && '\r' !in upper && '\0' !in upper && AsciiUpper(upper) == upper && |upper| == |text|
            && (upper == "" <==> text == "")
  {
  }

  lemma BodyBudget(n: Texts, d: Document)
    requires CanonicalBody(n, d).Fine?
    ensures CanonicalCurrency(n, d.budget.currency) == Fine(CanonicalBody(n, d).value.budget.currency)
  {
    hide CanonicalSource, CanonicalBoundaries, CanonicalRequirements, CanonicalProfile, CanonicalPlanGoals, CleanText,
         CleanArray, CanonicalCurrency;
  }
}
