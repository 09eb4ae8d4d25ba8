/** Plan indexes and the CreateLoop command compiled from a canonical plan, against what the kernel accepts. */
module PlanIndexes {
  import opened Base
  import opened Records
  import opened Commands
  import opened Authority
  import opened Kernel
  import opened Transitions
  import opened PlanProgress
  import opened EffectCoupling
  import opened ResultBinding
  import opened ClosureBacking
  import opened Invariant
  import opened Runs
  import opened Safety
  import opened StorageMode
  import opened PlanDocuments

  /** The codec's encoders of plans, goal slices, indexes and provider requests are parameters. */
  datatype Codec = Codec(
    texts: Texts, encode: Encoder, slice: PlanGoal -> string, indexed: Index -> string, request: (Document, Index) -> string)

  datatype Index = Index(
    version: Version, capacity: Capacity, planDigest: Str, goalCount: int, ids: seq<string>, slices: seq<Str>,
    revision: int, workspace: string, authority: Str)

  function SliceDigest(k: Codec, g: PlanGoal): Str { Digest(SliceContent(k.slice(g))) }

  /** The digest of a plan's canonical bytes. */
  function PlanDigestOf(k: Codec, d: Document): Option<Str> {
    var raw := k.encode(d);
    if raw.None? then None else Some(Digest(BlobContent(raw.value)))
  }

  function CapacityOf(v: Version): Capacity { match v case V1 => CapacityV1 case V2 => CapacityV2 }

  // Indexes ----------------------------------------------------------------------------------------------------

  /** The goal with an id, as the dictionary built from the goal list has it: the last one. */
  function GoalById(goals: seq<PlanGoal>, id: string): Option<PlanGoal> {
    if goals == [] then None
    else if goals[|goals| - 1].id == id then Some(goals[|goals| - 1])
    else GoalById(goals[..|goals| - 1], id)
  }

  function SlicesFor(k: Codec, goals: seq<PlanGoal>, ids: seq<string>): Option<seq<Str>> {
    if ids == [] then Some([])
    else
      var front := SlicesFor(k, goals, ids[..|ids| - 1]);
      var last := GoalById(goals, ids[|ids| - 1]);
      if front.None? || last.None? then None else Some(front.value + [SliceDigest(k, last.value)])
  }

  predicate SameIds(ids: seq<string>, goals: seq<PlanGoal>) {
    (forall i :: 0 <= i < |ids| ==> ids[i] in GoalIds(goals)) && (forall i :: 0 <= i < |goals| ==> goals[i].id in ids)
  }

  /** `validate_plan_index` */
  predicate ValidIndex(k: Codec, x: Index, d: Document) {
    && x.version == d.version && x.capacity == CapacityOf(d.version)
    && Canonicalize(k.texts, k.encode, d).Fine?
    && PlanDigestOf(k, Canonicalize(k.texts, k.encode, d).value) == Some(x.planDigest)
    && |x.ids| == x.goalCount && |x.slices| == x.goalCount && NoRepeats(x.ids)
    && SameIds(x.ids, d.goals) && SlicesFor(k, d.goals, x.ids) == Some(x.slices)
    && 0 <= x.revision < 0x8000_0000
    && CleanText(k.texts, x.workspace, 256).Fine?
    && IsHex64(x.planDigest) && IsHex64(x.authority)
  }

  /** `build_plan_index` in the plan's own order or another one. */
  function BuildIndex(k: Codec, d: Document, planDigest: Str, workspace: string, authority: Str, revision: int, order: seq<string>)
    : Option<Index>
  {
    if |order| != |d.goals| || !NoRepeats(order) || !SameIds(order, d.goals) then None
    else if SlicesFor(k, d.goals, order).None? || CleanText(k.texts, workspace, 256).Wrong? then None
    else
      var x := Index(d.version, CapacityOf(d.version), planDigest, |order|, order, SlicesFor(k, d.goals, order).value,
                     revision, CleanText(k.texts, workspace, 256).value, authority);
      if ValidIndex(k, x, d) then Some(x) else None
  }

  lemma {:induction false} SlicesAreFound(k: Codec, goals: seq<PlanGoal>, ids: seq<string>)
    requires SlicesFor(k, goals, ids).Some?
    ensures var slices := SlicesFor(k, goals, ids).value;
            && |slices| == |ids|
            && forall i :: 0 <= i < |ids| ==>
                 GoalById(goals, ids[i]).Some? && slices[i] == SliceDigest(k, GoalById(goals, ids[i]).value)
  {
    if ids != [] { SlicesAreFound(k, goals, ids[..|ids| - 1]); }
  }

  lemma {:induction false} KnownIdsHaveSlices(k: Codec, goals: seq<PlanGoal>, ids: seq<string>)
    requires forall i :: 0 <= i < |ids| ==> ids[i] in GoalIds(goals)
    ensures SlicesFor(k, goals, ids).Some?
  {
    if ids != [] {
      KnownIdsHaveSlices(k, goals, ids[..|ids| - 1]);
      IdsAreFound(goals, ids[|ids| - 1]);
    }
  }

  lemma {:induction false} IdsAreFound(goals: seq<PlanGoal>, id: string)
    requires id in GoalIds(goals)
    ensures GoalById(goals, id).Some? && GoalById(goals, id).value in goals && GoalById(goals, id).value.id == id
  {
    var n := |goals| - 1;
    if goals[n].id != id {
      var i :| 0 <= i < |goals| && GoalIds(goals)[i] == id;
      assert GoalIds(goals[..n])[i] == id;
      IdsAreFound(goals[..n], id);
    }
  }

  /** An index can be built for every order of the plan's goals, and for nothing else. */
  lemma BuildIndexExactly(
    k: Codec, d: Document, planDigest: Str, workspace: string, authority: Str, revision: int, order: seq<string>)
    requires Lawful(k.texts) && Canonicalize(k.texts, k.encode, d) == Fine(d) && PlanDigestOf(k, d) == Some(planDigest)
    ensures BuildIndex(k, d, planDigest, workspace, authority, revision, order).Some?
            <==> && |order| == |d.goals| && NoRepeats(order) && SameIds(order, d.goals)
                 && CleanText(k.texts, workspace, 256).Fine? && 0 <= revision < 0x8000_0000 && IsHex64(authority)
  {
    hide Canonicalize, CleanText, SlicesFor, NoRepeats, Lawful, GoalById;
    if SameIds(order, d.goals) && CleanText(k.texts, workspace, 256).Fine? {
      KnownIdsHaveSlices(k, d.goals, order);
      SlicesAreFound(k, d.goals, order);
      CleanTextAgain(k.texts, workspace, 256);
    }
    hide SameIds;
  }

  /** The plan has a goal with this id, and this is the digest of its slice. */
  predicate SliceOfGoal(k: Codec, d: Document, id: string, slice: Str) {
    exists g :: g in d.goals && g.id == id && slice == Digest(SliceContent(k.slice(g)))
  }

  /** An index lists the order it was built for and, for each id, the digest of the slice of the plan's goal with that id;
      the rest of it is the plan's version with its capacity and what the index was built with. */
  lemma IndexContents(
    k: Codec, d: Document, planDigest: Str, workspace: string, authority: Str, revision: int, order: seq<string>, x: Index)
    requires BuildIndex(k, d, planDigest, workspace, authority, revision, order) == Some(x)
    ensures x.ids == order && x.goalCount == |order| == |x.slices|
    ensures forall i :: 0 <= i < |order| ==> SliceOfGoal(k, d, order[i], x.slices[i])
    ensures x.version == d.version && x.capacity == if d.version == V1 then CapacityV1 else CapacityV2
    ensures x.planDigest == planDigest && x.authority == authority && x.revision == revision
    ensures x.workspace == k.texts.clean(workspace)
  {
    assert SameIds(order, d.goals);
    hide Canonicalize, SlicesFor, NoRepeats, GoalById, SliceOfGoal;
    SlicesAreFound(k, d.goals, order);
    forall i | 0 <= i < |order| ensures SliceOfGoal(k, d, order[i], x.slices[i]) {
      SliceIsFound(k, d, order[i], x.slices[i]);
    }
  }

  lemma SliceIsFound(k: Codec, d: Document, id: string, slice: Str)
    requires id in GoalIds(d.goals) && GoalById(d.goals, id).Some? && slice == SliceDigest(k, GoalById(d.goals, id).value)
    ensures SliceOfGoal(k, d, id, slice)
  {
    IdsAreFound(d.goals, id);
  }

  // Compiling --------------------------------------------------------------------------------------------------

  /** A plan that canonicalises to itself, with its digest and its index in plan order. */
  datatype Compiled = Compiled(plan: Document, digest: Str, index: Index)

  /** The rest of `compile_plan`, after the plan has been canonicalised. */
  function Compile(k: Codec, d: Document, workspace: string, authority: Str): Option<Compiled> {
    var digest := PlanDigestOf(k, d);
    if digest.None? then None
    else
      var x := BuildIndex(k, d, digest.value, workspace, authority, 0, GoalIds(d.goals));
      if x.None? then None else Some(Compiled(d, digest.value, x.value))
  }

  function IndexDigest(k: Codec, x: Index): Str { Digest(BlobContent(k.indexed(x))) }

  function Named(ids: seq<string>): (r: seq<Str>)
    ensures |r| == |ids| && forall i :: 0 <= i < |ids| ==> r[i] == Text(ids[i])
  {
    seq(|ids|, i requires 0 <= i < |ids| => Text(ids[i]))
  }

  /** `content_create_payload`: the capacity is that of version 2 whatever the plan's version, and a version 1 plan
      leaves the goal's requirement and attempts at their defaults. */
  function CreatePayload(k: Codec, c: Compiled): Option<Startup> {
    if !ValidIndex(k, c.index, c.plan) || c.index.ids == [] then None
    else
      var first := GoalById(c.plan.goals, c.index.ids[0]);
      if first.None? then None
      else
        var policy := first.value.policy;
        Some(Startup(
               first.value.objective, [first.value.objective], c.plan.adaptive, c.plan.reorders + 1, true,
               c.index.goalCount, 0, c.index.revision, Text(c.index.ids[0]), c.index.slices[0], Named(c.index.ids), c.index.slices,
               c.index.planDigest, IndexDigest(k, c.index), c.index.authority, Text(c.index.workspace),
               c.plan.budget.invocations, c.plan.budget.seconds, c.plan.budget.cost, Digest(StopPolicy(c.plan.stops)),
               if policy.Some? then policy.value.requirement else Required,
               if policy.Some? then policy.value.maxAttempts else 1, CapacityV2))
  }

  /** Who issues the command, and what confirms it. */
  datatype Launch = Launch(
    loop: Str, operationId: Str, actor: Str, grant: Str, issuedAt: int, receipt: Str, manifest: Str, boundary: Str,
    bundle: Str, profile: Str, baseline: Option<Str>)

  /** `content_create_command` */
  function CreateRequest(k: Codec, c: Compiled, startup: Startup, l: Launch): Request {
    var chain := GoalChain(l.loop, c.digest, startup.goalId, startup.slice);
    var resolved := map[
      BoundaryDigest := l.boundary, PlanDigest := c.digest, Field.IndexDigest := IndexDigest(k, c.index),
      PreparedBundle := l.bundle, PreparedManifest := l.manifest, ProviderAction := CREATE_TASK,
      RequestDigest := Digest(ProviderContent(k.request(c.plan, c.index))), TargetRef := chain.providerTarget];
    var bound := if l.baseline.None? then resolved
                 else resolved[BaselineBlob := l.baseline.value][ArtifactProfile := l.profile]
                      [WorkspaceIdentity := Text(c.index.workspace)];
    Request(l.operationId, l.actor, l.grant, l.loop, LoopRef, l.loop, 0, [], l.issuedAt,
            map[NewAttempt := chain.attemptRef, NewEffect := chain.effectRef, NewGoal := chain.goalRef,
                NewHost := chain.hostRef, ProviderIdempotencyKey := chain.providerKey],
            bound, Some(l.receipt), map[], Create(startup))
  }

  // What the kernel accepts ------------------------------------------------------------------------------------

  /** A strict confirmation of the prepared bundle, current when the command is issued. */
  predicate Confirmed(ctx: Context, l: Launch) {
    && Truthy(l.manifest) && Truthy(l.boundary) && Truthy(l.bundle)
    && Truthy(l.receipt) && l.receipt in ctx.receipts
    && var receipt := ctx.receipts[l.receipt];
       && receipt.encoding.Encoded? && receipt.withinSize
       && Vouched(ctx.roots, Issuer(ReceiptTrust, receipt.issuer), receipt.issuerTrust)
       && receipt.notBefore <= l.issuedAt <= receipt.expires
       && receipt.action == CONFIRM_START && receipt.loop == l.loop && receipt.subject == l.loop
       && receipt.target == Some(l.boundary) && receipt.request == Some(l.manifest)
       && receipt.trust == StrictTrust && receipt.outcome == SeenObserved && receipt.evidence == l.bundle
  }

  lemma {:induction false} BlankStrips(t: string)
    requires Blank(t)
    ensures Strip(t) == ""
  {
    if t != "" { BlankStrips(t[1..]); }
  }

  lemma CleanIsNotBlank(n: Texts, value: string, maximum: nat)
    requires Lawful(n) && CleanText(n, value, maximum).Fine?
    ensures !Blank(CleanText(n, value, maximum).value)
  {
    var t := CleanText(n, value, maximum).value;
    if Blank(t) { BlankStrips(t); }
  }

  /** What canonical plans promise. */
  predicate PlanBounds(n: Texts, d: Document) {
    && 1 <= |d.goals| <= 128 && NoRepeats(GoalIds(d.goals))
    && 0 <= d.reorders <= 16 && (!d.adaptive ==> d.reorders == 0)
    && d.budget.seconds >= 1 && d.budget.cost >= 0
    && (forall i :: 0 <= i < |d.goals| ==> GoalBounds(d.goals[i]))
  }

  predicate GoalBounds(g: PlanGoal) {
    !Blank(g.objective) && g.id != "" && (g.policy.Some? ==> 1 <= g.policy.value.maxAttempts <= 3)
  }

  lemma GoalIsBounded(n: Texts, v: Version, g: PlanGoal, requirements: map<string, string>)
    requires Lawful(n) && CanonicalGoal(n, v, g, requirements).Fine?
    ensures GoalBounds(CanonicalGoal(n, v, g, requirements).value)
  {
    CleanIsNotBlank(n, g.objective, ObjectiveMax(v));
    hide CleanText, CleanArray, Lawful, Blank;
  }

  lemma {:induction false} GoalsAreBounded(n: Texts, v: Version, goals: seq<PlanGoal>, requirements: map<string, string>)
    requires Lawful(n) && CanonicalGoals(n, v, goals, requirements).Fine?
    ensures forall i :: 0 <= i < |goals| ==> GoalBounds(CanonicalGoals(n, v, goals, requirements).value[i])
  {
    if goals != [] {
      GoalsAreBounded(n, v, goals[..|goals| - 1], requirements);
      GoalIsBounded(n, v, goals[|goals| - 1], requirements);
      hide CanonicalGoal, GoalBounds, Lawful;
    }
  }

  lemma CanonicalIsBounded(n: Texts, encode: Encoder, d: Document)
    requires Lawful(n) && Canonicalize(n, encode, d) == Fine(d)
    ensures PlanBounds(n, d)
  {
    BodyHead(n, d);
    BodyGoals(n, d);
    hide CanonicalBody, CanonicalSource, CanonicalBoundaries, CanonicalRequirements, CanonicalProfile, CanonicalCurrency,
         CanonicalGoals, NoRepeats, GoalBounds, Lawful;
    GoalsAreBounded(n, d.version, d.goals, d.requirements);
  }

  lemma BodyGoals(n: Texts, d: Document)
    requires CanonicalBody(n, d) == Fine(d)
    ensures CanonicalPlanGoals(n, d, d.requirements, d.budget.invocations) == Fine(d.goals)
  {
    hide CanonicalSource, CanonicalBoundaries, CanonicalBudget, CanonicalRequirements, CanonicalProfile,
         CanonicalPlanGoals, CleanText, CleanArray;
  }

  lemma NamedDistinct(ids: seq<string>)
    requires NoRepeats(ids)
    ensures NoRepeats(Named(ids)) && Distinct(Named(ids))
  {
    NoRepeatsMeansDistinct(Named(ids));
  }

  /** The compiled payload exists, and describes the first goal of the plan. */
  lemma PayloadOfCompiled(k: Codec, d: Document, workspace: string, authority: Str)
    requires Lawful(k.texts) && Canonicalize(k.texts, k.encode, d) == Fine(d) && Compile(k, d, workspace, authority).Some?
    ensures var c := Compile(k, d, workspace, authority).value;
            && c.plan == d && ValidIndex(k, c.index, d) && c.index.ids == GoalIds(d.goals) && c.index.revision == 0
            && c.digest == c.index.planDigest
            && CreatePayload(k, c).Some? && GoalById(d.goals, d.goals[0].id).Some?
            && GoalById(d.goals, d.goals[0].id).value in d.goals
  {
    CanonicalIsBounded(k.texts, k.encode, d);
    assert GoalIds(d.goals)[0] in GoalIds(d.goals);
    IdsAreFound(d.goals, d.goals[0].id);
    hide ValidIndex, Canonicalize, GoalBounds, Lawful, CleanText, SlicesFor;
  }

  /** What the payload of a compiled plan rests on. */
  predicate ReadyPayload(k: Codec, c: Compiled, g: PlanGoal) {
    && |c.index.ids| == c.index.goalCount == |c.index.slices| == |c.plan.goals| && 1 <= c.index.goalCount <= 128
    && Distinct(Named(c.index.ids)) && Is64(c.index.planDigest) && Is64(c.index.authority) && c.index.revision == 0
    && (forall i :: 0 <= i < |c.index.slices| ==> Is64(c.index.slices[i]))
    && c.plan.budget.seconds >= 1 && c.plan.budget.cost >= 0
    && GoalById(c.plan.goals, c.index.ids[0]) == Some(g) && GoalBounds(g)
    && 0 <= c.plan.reorders <= 16 && (!c.plan.adaptive ==> c.plan.reorders == 0)
  }

  lemma IdentityExactly(k: Codec, c: Compiled, g: PlanGoal)
    requires ReadyPayload(k, c, g) && ValidIndex(k, c.index, c.plan)
    ensures CreatePayload(k, c).Some? && ValidObjective(CreatePayload(k, c).value)
    ensures ValidPlanIdentity(CreatePayload(k, c).value)
            <==> |c.index.workspace| == 64 && c.plan.budget.invocations >= |c.plan.goals|
  {
    hide ValidIndex, Distinct, Blank, Strip, GoalById;
  }

  lemma IndexIsReady(k: Codec, x: Index, d: Document)
    requires ValidIndex(k, x, d) && x.ids == GoalIds(d.goals)
    ensures |x.ids| == x.goalCount == |x.slices| == |d.goals| && Is64(x.planDigest) && Is64(x.authority)
    ensures Distinct(Named(x.ids)) && forall i :: 0 <= i < |x.slices| ==> Is64(x.slices[i])
  {
    assert NoRepeats(x.ids) && SlicesFor(k, d.goals, x.ids) == Some(x.slices);
    hide Canonicalize, CleanText, SameIds, SlicesFor, GoalById;
    SlicesAreFound(k, d.goals, x.ids);
    NamedDistinct(x.ids);
    hide Distinct, NoRepeats;
  }

  lemma FirstIsBounded(n: Texts, d: Document, g: PlanGoal)
    requires PlanBounds(n, d) && g in d.goals
    ensures GoalBounds(g)
  {
    hide GoalBounds, NoRepeats;
  }

  lemma CompiledIsReady(k: Codec, d: Document, workspace: string, authority: Str) returns (g: PlanGoal)
    requires Lawful(k.texts) && Canonicalize(k.texts, k.encode, d) == Fine(d) && Compile(k, d, workspace, authority).Some?
    ensures ReadyPayload(k, Compile(k, d, workspace, authority).value, g)
  {
    hide ValidIndex, Distinct, Canonicalize, Lawful, SlicesFor, GoalById, GoalBounds, Compile, CreatePayload, Is64;
    PayloadOfCompiled(k, d, workspace, authority);
    CanonicalIsBounded(k.texts, k.encode, d);
    IndexIsReady(k, Compile(k, d, workspace, authority).value.index, d);
    g := GoalById(d.goals, d.goals[0].id).value;
    FirstIsBounded(k.texts, d, g);
    hide NoRepeats;
  }

  /** The kernel's checks of the plan, for a compiled payload: the codec leaves open only the width of the workspace
      binding and whether the host budget covers the goals. */
  lemma PlanChecksExactly(k: Codec, d: Document, workspace: string, authority: Str)
    requires Lawful(k.texts) && Canonicalize(k.texts, k.encode, d) == Fine(d) && Compile(k, d, workspace, authority).Some?
    ensures var c := Compile(k, d, workspace, authority).value;
            && CreatePayload(k, c).Some?
            && var startup := CreatePayload(k, c).value;
               && ValidObjective(startup)
               && (ValidPlanIdentity(startup) <==> |c.index.workspace| == 64 && d.budget.invocations >= |d.goals|)
  {
    hide ValidIndex, Canonicalize, Lawful, Compile, CreatePayload, ReadyPayload, ValidObjective, ValidPlanIdentity;
    PayloadOfCompiled(k, d, workspace, authority);
    var g := CompiledIsReady(k, d, workspace, authority);
    IdentityExactly(k, Compile(k, d, workspace, authority).value, g);
  }

  lemma ConfirmationExactly(k: Codec, c: Compiled, startup: Startup, ctx: Context, l: Launch)
    ensures StartupReceipt(CreateRequest(k, c, startup, l), ctx).Ok? <==> Confirmed(ctx, l)
  {
    hide GoalChain;
  }

  lemma BaselineExactly(k: Codec, c: Compiled, startup: Startup, l: Launch)
    ensures StartupBaseline(CreateRequest(k, c, startup, l)).Ok? <==> (l.baseline.Some? ==> l.profile in PROFILES)
  {
    var resolved := CreateRequest(k, c, startup, l).resolved;
    hide GoalChain;
    if l.baseline.Some? {
      assert BASELINE_FIELDS <= resolved.Keys && BaselineBlob in resolved.Keys;
    }
  }

  lemma CreateExactly(k: Codec, c: Compiled, startup: Startup, ctx: Context, l: Launch)
    requires c.digest == startup.planDigest
    ensures AfterCreate(None, CreateRequest(k, c, startup, l), ctx, startup).Ok?
            <==> ValidObjective(startup) && ValidPlanIdentity(startup) && Confirmed(ctx, l)
                 && (l.baseline.Some? ==> l.profile in PROFILES)
  {
    ConfirmationExactly(k, c, startup, ctx, l);
    BaselineExactly(k, c, startup, l);
    hide StartupReceipt, StartupBaseline, ValidObjective, ValidPlanIdentity, Confirmed, InitialPlan, InitialGoal,
         NewEffectRecord, NewAttemptRecord;
  }

  /** The command compiled from a canonical plan passes every check of CreateLoop exactly when the workspace binding is
      64 characters wide, the host budget covers the goals, the confirmation is strict and current, and an artifact
      baseline comes with a known profile. */
  lemma CompiledIsAccepted(k: Codec, d: Document, workspace: string, authority: Str, ctx: Context, l: Launch)
    requires Lawful(k.texts) && Canonicalize(k.texts, k.encode, d) == Fine(d) && Compile(k, d, workspace, authority).Some?
    ensures var c := Compile(k, d, workspace, authority).value;
            && CreatePayload(k, c).Some?
            && (AfterCreate(None, CreateRequest(k, c, CreatePayload(k, c).value, l), ctx, CreatePayload(k, c).value).Ok?
                <==> |c.index.workspace| == 64 && d.budget.invocations >= |d.goals| && Confirmed(ctx, l)
                     && (l.baseline.Some? ==> l.profile in PROFILES))
  {
    PlanChecksExactly(k, d, workspace, authority);
    PayloadOfCompiled(k, d, workspace, authority);
    var c := Compile(k, d, workspace, authority).value;
    var startup := CreatePayload(k, c).value;
    assert startup.planDigest == c.digest by { hide ValidIndex; }
    hide Compile, CreatePayload, ValidObjective, ValidPlanIdentity, Confirmed, AfterCreate, CreateRequest, Canonicalize,
         Lawful, ValidIndex;
    CreateExactly(k, c, startup, ctx, l);
  }

  // Later revisions --------------------------------------------------------------------------------------------

  /** The pairing of ids and slices that validating an index of this plan demands, in whatever order. */
  predicate PairsAs(k: Codec, goals: seq<PlanGoal>, ids: seq<Str>, slices: seq<Str>) {
    && |ids| == |slices| == |goals| && NoRepeats(ids)
    && (forall i :: 0 <= i < |ids| ==> PairedGoal(k, goals, ids[i], slices[i]))
  }

  predicate PairedGoal(k: Codec, goals: seq<PlanGoal>, id: Str, slice: Str) {
    id.Text? && GoalById(goals, id.text).Some? && slice == SliceDigest(k, GoalById(goals, id.text).value)
  }

  lemma PairingCarries(k: Codec, goals: seq<PlanGoal>, p: Plan, q: Plan)
    requires PlanShape(p) && PlanShape(q) && PairsAs(k, goals, p.ids, p.slices) && q.goalCount == p.goalCount
    requires Pairing(q.ids, q.slices) == Pairing(p.ids, p.slices)
    ensures PairsAs(k, goals, q.ids, q.slices)
  {
    forall j | 0 <= j < |q.ids| ensures PairedGoal(k, goals, q.ids[j], q.slices[j]) {
      PairingLookup(q.ids, q.slices, j);
      PairingKeys(p.ids, p.slices);
      var i :| 0 <= i < |p.ids| && p.ids[i] == q.ids[j];
      PairingLookup(p.ids, p.slices, i);
    }
  }

  /** Every accepted command, a revision in particular, keeps the pairing of the plan it was created from. */
  lemma {:induction false} PairingHoldsForLife(k: Codec, goals: seq<PlanGoal>, run: seq<Input>, n: nat)
    requires n <= |run| && After(run[..n]).Some?
    requires PairsAs(k, goals, After(run[..n]).value.plan.ids, After(run[..n]).value.plan.slices)
    ensures After(run).Some? && PairsAs(k, goals, After(run).value.plan.ids, After(run).value.plan.slices)
  {
    hide Commit, Inv, Fits, PairsAs, Forwards;
    if n == |run| {
      assert run[..n] == run;
    } else {
      var front, last := run[..|run| - 1], run[|run| - 1];
      assert front[..n] == run[..n];
      PairingHoldsForLife(k, goals, front, n);
      LastCommand(run);
      if Commit(After(front), last).Ok? {
        ReachableInv(front);
        var t := Commit(After(front), last).value;
        CommitForwards(After(front).value, last, t);
        StepKeepsPairing(k, goals, After(front).value, t);
      }
    }
  }

  lemma StepKeepsPairing(k: Codec, goals: seq<PlanGoal>, s: Snapshot, t: Reduced)
    requires Inv(s) && Inv(t.snapshot) && Forwards(s, t) && PairsAs(k, goals, s.plan.ids, s.plan.slices)
    ensures PairsAs(k, goals, t.snapshot.plan.ids, t.snapshot.plan.slices)
  {
    hide CoupledInv, BoundInv, EndingInv, PolicyInv, ObservedForwards, BudgetForwards, AttemptsConserved, RepairsCounted,
         GoalsAdvance, GoalAt, Pairing, PairsAs;
    PairingCarries(k, goals, s.plan, t.snapshot.plan);
  }

  // Runs that start with a compiled command --------------------------------------------------------------------

  /** The first command of a run is the one compiled from a canonical plan. */
  predicate StartsCompiled(k: Codec, c: Compiled, l: Launch, i: Input) {
    CreatePayload(k, c).Some? && i.command.request == CreateRequest(k, c, CreatePayload(k, c).value, l)
  }

  /** The snapshot that the compiled command creates has the plan's goals, in plan order, with the codec's slices. */
  lemma CompiledPairs(k: Codec, d: Document, workspace: string, authority: Str, l: Launch, i: Input, t: Reduced)
    requires Lawful(k.texts) && Canonicalize(k.texts, k.encode, d) == Fine(d) && Compile(k, d, workspace, authority).Some?
    requires StartsCompiled(k, Compile(k, d, workspace, authority).value, l, i) && Commit(None, i) == Ok(t)
    ensures t.snapshot.plan.ids == Named(GoalIds(d.goals))
    ensures PairsAs(k, d.goals, t.snapshot.plan.ids, t.snapshot.plan.slices)
  {
    hide Commit, Canonicalize, Lawful, ValidIndex, AfterCreate, ValidateReferences, GoalById, SlicesFor, PairsAs,
         Compile, StartsCompiled;
    PayloadOfCompiled(k, d, workspace, authority);
    var c := Compile(k, d, workspace, authority).value;
    CompiledPayload(k, c, l, i);
    var first := FirstCommit(i, t);
    CreateDelta(i.command.request, i.context, i.command.request.payload.startup, first);
    CreatedPlan(i.command.request, i.command.request.payload.startup, first);
    hide CreatesLoop;
    IndexPairs(k, c.index, d);
  }

  /** The plan a loop is created with says what the document says: its goals in order, its budget, its reorderings, its stop
      conditions, under the digests of plan and index. */
  predicate CarriesPlan(k: Codec, d: Document, x: Index, workspace: string, authority: Str, p: Plan) {
    && k.encode(d).Some? && p.planDigest == Digest(BlobContent(k.encode(d).value))
    && p.indexDigest == Digest(BlobContent(k.indexed(x)))
    && p.workspace == Text(k.texts.clean(workspace)) && p.authority == authority
    && p.budget == Budget(d.budget.cost, d.budget.invocations, d.budget.seconds)
    && p.adaptive == d.adaptive && p.maxRevisions == d.reorders + 1 && p.stopPolicy == Digest(StopPolicy(d.stops))
    && p.goalCount == |d.goals| && p.revision == 0 && p.activeIndex == 0 && p.capacity == CapacityV2 && p.extension == None
  }

  /** And the goal it starts with is the document's first goal. */
  predicate CarriesFirst(k: Codec, d: Document, g: Goal) {
    && d.goals != [] && g.goalId == Text(d.goals[0].id) && SliceOfGoal(k, d, d.goals[0].id, g.slice)
    && g.order == 0 && g.dependsOn == None && g.state == Active
    && g.objectiveDigest == Digest(ObjectiveText(d.goals[0].objective))
    && (match d.goals[0].policy
        case Some(policy) => g.requirement == policy.requirement && g.maxAttempts == policy.maxAttempts
        case None => g.requirement == Required && g.maxAttempts == 1)
  }

  /** What the compiled payload says, in terms of the document. */
  predicate PayloadCarries(k: Codec, d: Document, x: Index, c: Startup) {
    && d.goals != [] && x.ids == GoalIds(d.goals) && |x.slices| == |x.ids|
    && c.planDigest == x.planDigest && c.indexDigest == Digest(BlobContent(k.indexed(x))) && c.authority == x.authority
    && c.workspace == Text(x.workspace) && c.cost == d.budget.cost && c.invocations == d.budget.invocations
    && c.seconds == d.budget.seconds && c.adaptive == d.adaptive && c.maxRevisions == d.reorders + 1
    && c.stopPolicy == Digest(StopPolicy(d.stops)) && c.goalCount == x.goalCount && c.capacity == CapacityV2
    && c.goalId == Text(d.goals[0].id) && c.slice == x.slices[0] && c.objective == d.goals[0].objective
    && (match d.goals[0].policy
        case Some(policy) => c.requirement == policy.requirement && c.maxAttempts == policy.maxAttempts
        case None => c.requirement == Required && c.maxAttempts == 1)
  }

  lemma FirstGoalIsFound(k: Codec, d: Document, x: Index)
    requires ValidIndex(k, x, d) && x.ids == GoalIds(d.goals) && d.goals != []
    ensures GoalById(d.goals, d.goals[0].id) == Some(d.goals[0]) && |x.slices| == |x.ids|
  {
    hide Canonicalize, CleanText, SameIds, SlicesFor;
    assert NoRepeats(GoalIds(d.goals));
    OnlyGoalById(d.goals, 0);
  }

  lemma {:induction false} OnlyGoalById(goals: seq<PlanGoal>, j: nat)
    requires NoRepeats(GoalIds(goals)) && j < |goals|
    ensures GoalById(goals, goals[j].id) == Some(goals[j])
  {
    var n := |goals| - 1;
    assert GoalIds(goals)[n] == goals[n].id && GoalIds(goals)[j] == goals[j].id;
    if j < n {
      assert goals[n].id != goals[j].id;
      forall a, b | 0 <= a < b < n ensures GoalIds(goals[..n])[a] != GoalIds(goals[..n])[b] {
        assert GoalIds(goals)[a] != GoalIds(goals)[b];
      }
      OnlyGoalById(goals[..n], j);
    }
  }

  lemma PayloadSays(k: Codec, d: Document, c: Compiled)
    requires c.plan == d && ValidIndex(k, c.index, d) && c.index.ids == GoalIds(d.goals) && d.goals != []
    requires CreatePayload(k, c).Some?
    ensures PayloadCarries(k, d, c.index, CreatePayload(k, c).value)
  {
    FirstGoalIsFound(k, d, c.index);
    hide ValidIndex, GoalById;
  }

  lemma PlanIsCarried(r: Request, k: Codec, d: Document, x: Index, workspace: string, authority: Str, u: Snapshot)
    requires r.payload.Create? && PayloadCarries(k, d, x, r.payload.startup) && CreatesLoop(r, r.payload.startup, u)
    requires PlanDigestOf(k, d) == Some(x.planDigest) && x.goalCount == |d.goals|
    requires x.workspace == k.texts.clean(workspace) && x.authority == authority
    requires SliceOfGoal(k, d, d.goals[0].id, x.slices[0])
    ensures CarriesPlan(k, d, x, workspace, authority, u.plan)
    ensures u.plan.activeGoalRef in u.goals && CarriesFirst(k, d, u.goals[u.plan.activeGoalRef])
  {
    hide SliceOfGoal, FreshPair, GoalChain;
  }

  /** The loop that the compiled command creates has the document's plan and starts with its first goal. */
  lemma CompiledIsCarried(k: Codec, d: Document, workspace: string, authority: Str, l: Launch, i: Input, t: Reduced)
    requires Lawful(k.texts) && Canonicalize(k.texts, k.encode, d) == Fine(d) && Compile(k, d, workspace, authority).Some?
    requires StartsCompiled(k, Compile(k, d, workspace, authority).value, l, i) && Commit(None, i) == Ok(t)
    ensures CarriesPlan(k, d, Compile(k, d, workspace, authority).value.index, workspace, authority, t.snapshot.plan)
    ensures t.snapshot.plan.activeGoalRef in t.snapshot.goals
    ensures CarriesFirst(k, d, t.snapshot.goals[t.snapshot.plan.activeGoalRef])
  {
    hide Commit, Canonicalize, Lawful, ValidIndex, AfterCreate, ValidateReferences, GoalById, SlicesFor, CreatePayload,
         Compile, CreatesLoop, PayloadCarries, BuildIndex, CarriesPlan, CarriesFirst, SliceOfGoal, CreateRequest;
    PayloadOfCompiled(k, d, workspace, authority);
    var c := Compile(k, d, workspace, authority).value;
    var digest := CompiledIndex(k, d, workspace, authority);
    IndexContents(k, d, digest, workspace, authority, 0, GoalIds(d.goals), c.index);
    PayloadSays(k, d, c);
    var first := FirstCommit(i, t);
    CreateDelta(i.command.request, i.context, i.command.request.payload.startup, first);
    RequestCarries(k, c, CreatePayload(k, c).value, l);
    PlanIsCarried(i.command.request, k, d, c.index, workspace, authority, first.snapshot);
  }

  lemma RequestCarries(k: Codec, c: Compiled, startup: Startup, l: Launch)
    ensures CreateRequest(k, c, startup, l).payload == Create(startup)
  {
  }

  lemma CompiledIndex(k: Codec, d: Document, workspace: string, authority: Str) returns (digest: Str)
    requires Compile(k, d, workspace, authority).Some?
    ensures PlanDigestOf(k, d) == Some(digest) && Compile(k, d, workspace, authority).value.index.planDigest == digest
    ensures BuildIndex(k, d, digest, workspace, authority, 0, GoalIds(d.goals))
            == Some(Compile(k, d, workspace, authority).value.index)
  {
    digest := PlanDigestOf(k, d).value;
    hide ValidIndex, SlicesFor, CleanText;
  }

  lemma CompiledPayload(k: Codec, c: Compiled, l: Launch, i: Input)
    requires StartsCompiled(k, c, l, i)
    ensures i.command.request.payload.Create?
    ensures var startup := i.command.request.payload.startup;
            startup.ids == Named(c.index.ids) && startup.slices == c.index.slices
  {
    hide ValidIndex, GoalById, GoalChain;
  }

  lemma CreatedPlan(r: Request, c: Startup, d: Reduced)
    requires CreatesLoop(r, c, d.snapshot)
    ensures var u := Renumbered(d, 1).snapshot; u.plan.ids == c.ids && u.plan.slices == c.slices
  {
  }

  lemma IndexPairs(k: Codec, x: Index, d: Document)
    requires ValidIndex(k, x, d) && x.ids == GoalIds(d.goals)
    ensures PairsAs(k, d.goals, Named(x.ids), x.slices)
  {
    assert NoRepeats(x.ids) && SlicesFor(k, d.goals, x.ids) == Some(x.slices);
    hide Canonicalize, CleanText, SameIds, SlicesFor, GoalById;
    SlicesAreFound(k, d.goals, x.ids);
    NamedDistinct(x.ids);
  }

  /** The codec's spelling of goal ids. */
  function Spelled(ids: seq<Str>): (r: seq<string>)
    requires forall i :: 0 <= i < |ids| ==> ids[i].Text?
    ensures Named(r) == ids
  {
    seq(|ids|, i requires 0 <= i < |ids| => ids[i].text)
  }

  lemma {:induction false} FoundIsListed(goals: seq<PlanGoal>, id: string)
    requires GoalById(goals, id).Some?
    ensures id in GoalIds(goals)
  {
    var n := |goals| - 1;
    if goals[n].id == id {
      assert GoalIds(goals)[n] == id;
    } else {
      FoundIsListed(goals[..n], id);
      var i :| 0 <= i < n && GoalIds(goals[..n])[i] == id;
      assert GoalIds(goals)[i] == id;
    }
  }

  /** As many distinct ids of the plan as it has goals are all of them. */
  lemma PairedIdsAreAll(k: Codec, goals: seq<PlanGoal>, ids: seq<Str>, slices: seq<Str>)
    requires PairsAs(k, goals, ids, slices)
    ensures forall i :: 0 <= i < |ids| ==> ids[i].Text?
    ensures NoRepeats(Spelled(ids)) && SameIds(Spelled(ids), goals)
  {
    hide GoalById;
    forall i | 0 <= i < |ids| ensures ids[i].Text? && ids[i].text in GoalIds(goals) {
      assert PairedGoal(k, goals, ids[i], slices[i]);
      FoundIsListed(goals, ids[i].text);
    }
    var order, all := Spelled(ids), Named(GoalIds(goals));
    forall i | 0 <= i < |ids| ensures ids[i] in Elements(all) {
      var j :| 0 <= j < |goals| && GoalIds(goals)[j] == ids[i].text;
      assert all[j] == ids[i];
    }
    NoRepeatsMeansDistinct(ids);
    ElementsSize(all);
    assert Elements(ids) == set i | 0 <= i < |ids| :: ids[i];
    SubsetOfSize(Elements(ids), Elements(all));
    forall j | 0 <= j < |goals| ensures goals[j].id in order {
      assert all[j] in Elements(all);
      var i :| 0 <= i < |ids| && ids[i] == all[j];
      assert order[i] == goals[j].id;
    }
  }

  lemma PairedSlicesAreFound(k: Codec, goals: seq<PlanGoal>, ids: seq<Str>, slices: seq<Str>)
    requires PairsAs(k, goals, ids, slices) && (forall i :: 0 <= i < |ids| ==> ids[i].Text?)
    requires SameIds(Spelled(ids), goals)
    ensures SlicesFor(k, goals, Spelled(ids)) == Some(slices)
  {
    var order := Spelled(ids);
    KnownIdsHaveSlices(k, goals, order);
    SlicesAreFound(k, goals, order);
    hide GoalById, SlicesFor, SameIds, NoRepeats;
    var found := SlicesFor(k, goals, order).value;
    forall i | 0 <= i < |slices| ensures found[i] == slices[i] {
      assert PairedGoal(k, goals, ids[i], slices[i]) && Named(order)[i] == ids[i];
    }
    assert found == slices;
  }

  lemma PairedIndexIsValid(k: Codec, d: Document, x: Index, ids: seq<Str>, slices: seq<Str>, revision: int)
    requires ValidIndex(k, x, d) && PairsAs(k, d.goals, ids, slices) && 0 <= revision < 0x8000_0000
    requires x.goalCount == |d.goals|
    ensures forall i :: 0 <= i < |ids| ==> ids[i].Text?
    ensures SlicesFor(k, d.goals, Spelled(ids)) == Some(slices)
    ensures ValidIndex(k, x.(ids := Spelled(ids), slices := slices, revision := revision), d)
  {
    PairedIdsAreAll(k, d.goals, ids, slices);
    PairedSlicesAreFound(k, d.goals, ids, slices);
    hide Canonicalize, CleanText, SlicesFor, SameIds, NoRepeats, PairedGoal;
  }

  /** In every run that starts with the compiled command, whatever it revises later: the plan's slices are the codec's
      for its current order of ids, and the compiled index with that order, those slices and any revision number is one
      that validation accepts. */
  lemma CompiledStaysValid(
    k: Codec, d: Document, workspace: string, authority: Str, l: Launch, run: seq<Input>, revision: int)
    requires Lawful(k.texts) && Canonicalize(k.texts, k.encode, d) == Fine(d) && Compile(k, d, workspace, authority).Some?
    requires run != [] && Commit(None, run[0]).Ok? && 0 <= revision < 0x8000_0000
    requires StartsCompiled(k, Compile(k, d, workspace, authority).value, l, run[0])
    ensures After(run).Some?
    ensures var p := After(run).value.plan; var x := Compile(k, d, workspace, authority).value.index;
            && (forall i :: 0 <= i < |p.ids| ==> p.ids[i].Text?)
            && SlicesFor(k, d.goals, Spelled(p.ids)) == Some(p.slices)
            && ValidIndex(k, x.(ids := Spelled(p.ids), slices := p.slices, revision := revision), d)
  {
    hide Commit, Canonicalize, Lawful, ValidIndex, SlicesFor, PairsAs, Compile, StartsCompiled, CreatePayload;
    PayloadOfCompiled(k, d, workspace, authority);
    var x := Compile(k, d, workspace, authority).value.index;
    var t := Commit(None, run[0]).value;
    CompiledPairs(k, d, workspace, authority, l, run[0], t);
    OneCommand(run, t);
    PairingHoldsForLife(k, d.goals, run, 1);
    IndexCounts(k, x, d);
    PairedIndexIsValid(k, d, x, After(run).value.plan.ids, After(run).value.plan.slices, revision);
  }

  lemma IndexCounts(k: Codec, x: Index, d: Document)
    requires ValidIndex(k, x, d) && x.ids == GoalIds(d.goals)
    ensures x.goalCount == |d.goals|
  {
    hide Canonicalize, CleanText, SlicesFor, SameIds, NoRepeats;
  }

  lemma OneCommand(run: seq<Input>, t: Reduced)
    requires run != [] && Commit(None, run[0]) == Ok(t)
    ensures After(run[..1]) == Some(t.snapshot)
  {
    hide Commit;
    assert run[..1][..0] == [] && run[..1][0] == run[0];
    LastCommand(run[..1]);
  }

  // Repair chains ----------------------------------------------------------------------------------------------

  /** `repair_chain` of the codec, which knows ordinals 1 and 2 only. */
  function CodecRepairChain(loop: Str, planDigest: Str, goalRef: Str, goalId: Str, ordinal: int): Option<Chain> {
    if ordinal < 1 || ordinal > 2 then None
    else
      var id := RepairIdentity(loop, planDigest, goalRef, goalId, ordinal);
      Some(Chain(goalRef, RepairRef(AttemptRef, id), RepairRef(ExternalEffectRef, id), RepairRef(HostResourceRef, id),
                 RepairRef(ArtifactRef, id), RepairRef(ReportRef, id), RepairRef(ResultRef, id), RepairRef(ReviewRef, id),
                 RepairKey(id), RepairRef(HostResourceRef, id)))
  }

  /** A scheduled repair that the grants cover is the codec's chain; one beyond them may have none. */
  lemma ScheduledIsCodecChain(s: Snapshot, u: Snapshot, goalRef: Str, ordinal: nat)
    requires SnapshotPlanInv(s) && SchedulesRepair(s, u, goalRef, ordinal) && 1 <= ordinal
    ensures var chain := CodecRepairChain(s.loopRef, s.plan.planDigest, goalRef, s.goals[goalRef].goalId, ordinal);
            && (chain.Some? <==> ordinal <= 2)
            && (chain.Some? ==> u.goals[goalRef].chain == chain.value)
            && (ordinal < s.goals[goalRef].maxAttempts ==> chain.Some?)
  {
    hide Launches;
    var order := s.goals[goalRef].order;
    assert GoalAt(s.loopRef, s.plan, s.goals, order);
  }
}
