/** Effects, attempts and host resources: one-to-one, in step, and observed only forwards. */
module EffectCoupling {
  import opened Base
  import opened Records
  import opened Commands
  import opened Kernel
  import opened Transitions

  /** The part of a snapshot that wires effects to attempts, hosts and goals. */
  datatype Wiring = Wiring(
    loop: Str, plan: Str, goals: map<Str, Goal>, effects: map<Str, Effect>, attempts: map<Str, Attempt>,
    hosts: map<Str, Host>)

  function WiringOf(s: Snapshot): Wiring {
    Wiring(s.loopRef, s.plan.planDigest, s.goals, s.effects, s.attempts, s.hosts)
  }

  /** The chain an effect reference was derived with. */
  function ChainOf(e: Str): Option<Chain> {
    match e
    case PlanRef(kind, at) =>
      if kind == ExternalEffectRef then Some(GoalChain(at.loop, at.plan, at.goalId, at.slice)) else None
    case RepairRef(kind, id) => if kind == ExternalEffectRef then Some(RepairChain(id)) else None
    case _ => None
  }

  /** The effect whose host resource a reference names. */
  function EffectOfHost(h: Str): Str {
    match h
    case PlanRef(_, at) => PlanRef(ExternalEffectRef, at)
    case RepairRef(_, id) => RepairRef(ExternalEffectRef, id)
    case _ => h
  }

  /** Derived for a materialised goal of this loop and plan: the goal's first effect, or one of its repairs. */
  predicate Belongs(w: Wiring, e: Str) {
    match e
    case PlanRef(_, at) => at.loop == w.loop && at.plan == w.plan && PlanRef(GoalRef, at) in w.goals
    case RepairRef(_, id) =>
      id.loop == w.loop && id.plan == w.plan && id.goalRef in w.goals && id.goalId == w.goals[id.goalRef].goalId
      && 1 <= id.ordinal <= 3
    case _ => false
  }

  /** The effect carries its chain's references, its attempt is in step with it, and its host resource is bound
      exactly when it has been observed. */
  predicate EffectHolds(w: Wiring, e: Str) {
    && e in w.effects && Belongs(w, e) && ChainOf(e).Some?
    && var chain := ChainOf(e).value;
       var effect := w.effects[e];
       && effect.attemptRef == chain.attemptRef && effect.hostRef == chain.hostRef && effect.goalRef == chain.goalRef
       && chain.attemptRef in w.attempts
       && InStep(effect, w.attempts[chain.attemptRef], e, chain.providerKey)
       && (chain.hostRef in w.hosts <==> effect.state == Observed)
  }

  predicate InStep(effect: Effect, attempt: Attempt, e: Str, key: Str) {
    && attempt.effectRef == e && attempt.key == key
    && attempt.revision == effect.revision && attempt.state == effect.state && attempt.receipt == effect.receipt
    && attempt.action == effect.action && attempt.target == effect.target
    && (effect.state == Committed <==> effect.receipt == None)
  }

  predicate AttemptsPointBack(effects: map<Str, Effect>, attempts: map<Str, Attempt>) {
    forall a :: a in attempts ==> attempts[a].effectRef in effects && effects[attempts[a].effectRef].attemptRef == a
  }

  predicate HostsPointBack(effects: map<Str, Effect>, hosts: map<Str, Host>) {
    forall h :: h in hosts ==> EffectOfHost(h) in effects && effects[EffectOfHost(h)].hostRef == h
  }

  predicate GoalsHaveEffects(goals: map<Str, Goal>, effects: map<Str, Effect>) {
    forall g :: g in goals ==> g.PlanRef? && PlanRef(ExternalEffectRef, g.at) in effects
  }

  predicate CoupledInv(w: Wiring) {
    && (forall e :: e in w.effects ==> EffectHolds(w, e))
    && AttemptsPointBack(w.effects, w.attempts) && HostsPointBack(w.effects, w.hosts)
    && GoalsHaveEffects(w.goals, w.effects)
    && |w.effects| == |w.attempts|
  }

  /** States move only from COMMITTED to UNKNOWN, UNVERIFIABLE or OBSERVED, and then only to OBSERVED; the identity
      of an effect, its attempt and a bound host never change. */
  predicate ObservedForwards(w: Wiring, v: Wiring) {
    && w.effects.Keys <= v.effects.Keys && w.attempts.Keys <= v.attempts.Keys && w.hosts.Keys <= v.hosts.Keys
    && (forall e :: e in w.effects ==> EffectMoves(w.effects[e], v.effects[e]))
    && (forall a :: a in w.attempts ==> AttemptMoves(w.attempts[a], v.attempts[a]))
    && (forall h :: h in w.hosts ==> v.hosts[h] == w.hosts[h])
  }

  predicate EffectMoves(e: Effect, f: Effect) {
    e == f || (f == e.(receipt := f.receipt, revision := e.revision + 1, state := f.state) && MayObserve(e.state, f.state))
  }

  predicate AttemptMoves(a: Attempt, b: Attempt) {
    a == b || (b == a.(receipt := b.receipt, revision := a.revision + 1, state := b.state) && MayObserve(a.state, b.state))
  }

  /** Two effects share no attempt, no host and no provider key. */
  lemma ChainsAreDisjoint(e: Str, f: Str)
    requires ChainOf(e).Some? && ChainOf(f).Some? && e != f
    ensures var c, d := ChainOf(e).value, ChainOf(f).value;
            c.attemptRef != d.attemptRef && c.hostRef != d.hostRef && c.providerKey != d.providerKey
  {
  }

  lemma HostNamesItsEffect(e: Str)
    requires ChainOf(e).Some?
    ensures EffectOfHost(ChainOf(e).value.hostRef) == e && ChainOf(e).value.effectRef == e
  {
  }

  // Goals ----------------------------------------------------------------------------------------------------

  /** Goals may change chains and states without disturbing the effects. */
  lemma GoalsMayChange(w: Wiring, v: Wiring)
    requires CoupledInv(w) && v == w.(goals := v.goals)
    requires v.goals.Keys == w.goals.Keys && forall g :: g in w.goals ==> v.goals[g].goalId == w.goals[g].goalId
    ensures CoupledInv(v) && ObservedForwards(w, v)
  {
    hide EffectHolds, AttemptsPointBack, HostsPointBack;
    assert GoalsHaveEffects(v.goals, v.effects);
    hide GoalsHaveEffects;
    forall e | e in v.effects ensures EffectHolds(v, e) {
      GoalsMayChangeEach(w, v, e);
    }
  }

  lemma GoalsMayChangeEach(w: Wiring, v: Wiring, e: Str)
    requires EffectHolds(w, e) && v == w.(goals := v.goals)
    requires v.goals.Keys == w.goals.Keys && forall g :: g in w.goals ==> v.goals[g].goalId == w.goals[g].goalId
    ensures EffectHolds(v, e)
  {
    hide InStep, ChainOf;
  }

  // Observation ----------------------------------------------------------------------------------------------

  /** The observation of `e`, in the wiring. */
  predicate Observes(w: Wiring, v: Wiring, e: Str) {
    && EffectHolds(w, e) && e in v.effects
    && var a := w.effects[e].attemptRef;
       && a in v.attempts
       && v == w.(effects := w.effects[e := v.effects[e]], attempts := w.attempts[a := v.attempts[a]], hosts := v.hosts)
       && Sees(w.effects[e], v.effects[e], w.attempts[a], v.attempts[a])
       && v.hosts.Keys == w.hosts.Keys + (if v.effects[e].state == Observed then {w.effects[e].hostRef} else {})
       && (forall h :: h in w.hosts ==> v.hosts[h] == w.hosts[h])
  }

  predicate Sees(e: Effect, f: Effect, a: Attempt, b: Attempt) {
    && f == e.(receipt := f.receipt, revision := e.revision + 1, state := f.state)
    && b == a.(receipt := f.receipt, revision := a.revision + 1, state := f.state)
    && f.receipt.Some? && f.state != Committed && MayObserve(a.state, f.state)
  }

  lemma ObservesPairInWiring(s: Snapshot, u: Snapshot, e: Str)
    requires EffectHolds(WiringOf(s), e) && ObservesPair(s, u, e)
    ensures Observes(WiringOf(s), WiringOf(u), e)
  {
    hide InStep, Belongs, ChainOf;
  }

  lemma ObserveMovesForwards(w: Wiring, v: Wiring, e: Str)
    requires Observes(w, v, e)
    ensures ObservedForwards(w, v)
  {
    hide Belongs, ChainOf;
  }

  lemma ObserveKeepsOther(w: Wiring, v: Wiring, e: Str, f: Str)
    requires EffectHolds(w, f) && Observes(w, v, e) && f != e
    ensures EffectHolds(v, f)
  {
    ChainsAreDisjoint(e, f);
    hide InStep, Sees, ChainOf;
  }

  lemma ObserveKeepsOne(w: Wiring, v: Wiring, e: Str)
    requires Observes(w, v, e)
    ensures EffectHolds(v, e)
  {
    hide ChainOf;
  }

  lemma ObserveKeepsAttempts(w: Wiring, v: Wiring, e: Str)
    requires Observes(w, v, e) && AttemptsPointBack(w.effects, w.attempts)
    ensures AttemptsPointBack(v.effects, v.attempts)
  {
    hide ChainOf, Belongs;
  }

  lemma ObserveKeepsHosts(w: Wiring, v: Wiring, e: Str)
    requires Observes(w, v, e) && HostsPointBack(w.effects, w.hosts)
    ensures HostsPointBack(v.effects, v.hosts)
  {
    HostNamesItsEffect(e);
    hide ChainOf, Belongs, InStep, EffectOfHost;
  }

  lemma ObserveKeepsSizes(w: Wiring, v: Wiring, e: Str)
    requires Observes(w, v, e) && |w.effects| == |w.attempts| && GoalsHaveEffects(w.goals, w.effects)
    ensures |v.effects| == |v.attempts| == |w.attempts| && v.effects.Keys == w.effects.Keys
    ensures GoalsHaveEffects(v.goals, v.effects)
  {
    hide ChainOf, Belongs, InStep, Sees;
    assert v.effects.Keys == w.effects.Keys && v.attempts.Keys == w.attempts.Keys;
    assert |v.effects.Keys| == |v.effects| && |v.attempts.Keys| == |v.attempts|;
  }

  lemma ObserveKeepsCoupled(w: Wiring, v: Wiring, e: Str)
    requires CoupledInv(w) && Observes(w, v, e)
    ensures CoupledInv(v) && ObservedForwards(w, v)
  {
    hide EffectHolds, Observes, ObservedForwards, AttemptsPointBack, HostsPointBack, GoalsHaveEffects;
    ObserveMovesForwards(w, v, e);
    ObserveKeepsAttempts(w, v, e);
    ObserveKeepsHosts(w, v, e);
    ObserveKeepsSizes(w, v, e);
    forall f | f in v.effects ensures EffectHolds(v, f) {
      if f == e { ObserveKeepsOne(w, v, e); } else { ObserveKeepsOther(w, v, e, f); }
    }
  }

  // Launch ---------------------------------------------------------------------------------------------------

  /** Launching the chain of the fresh effect `e`, for a goal that is materialised by then. */
  predicate Adds(w: Wiring, v: Wiring, e: Str) {
    && ChainOf(e).Some? && e !in w.effects && e in v.effects
    && var chain := ChainOf(e).value;
       && chain.attemptRef !in w.attempts && chain.attemptRef in v.attempts
       && v == w.(goals := v.goals, effects := w.effects[e := v.effects[e]],
                  attempts := w.attempts[chain.attemptRef := v.attempts[chain.attemptRef]])
       && FreshPair(v.effects[e], v.attempts[chain.attemptRef], chain)
       && w.goals.Keys <= v.goals.Keys && v.goals.Keys <= w.goals.Keys + {chain.goalRef}
       && (forall g :: g in w.goals ==> v.goals[g].goalId == w.goals[g].goalId)
       && Belongs(v, e)
       && (chain.goalRef !in w.goals ==> chain.goalRef.PlanRef? && e == PlanRef(ExternalEffectRef, chain.goalRef.at))
  }

  lemma AddMovesForwards(w: Wiring, v: Wiring, e: Str)
    requires Adds(w, v, e)
    ensures ObservedForwards(w, v)
  {
    hide Belongs, ChainOf, FreshPair;
  }

  lemma AddKeepsOther(w: Wiring, v: Wiring, e: Str, f: Str)
    requires EffectHolds(w, f) && Adds(w, v, e)
    ensures EffectHolds(v, f)
  {
    ChainsAreDisjoint(e, f);
    hide InStep, FreshPair, ChainOf;
  }

  lemma AddHoldsOne(w: Wiring, v: Wiring, e: Str)
    requires Adds(w, v, e) && HostsPointBack(w.effects, w.hosts)
    ensures EffectHolds(v, e)
  {
    HostNamesItsEffect(e);
    hide ChainOf, Belongs, EffectOfHost;
  }

  lemma AddKeepsBackPointers(w: Wiring, v: Wiring, e: Str)
    requires Adds(w, v, e)
    requires AttemptsPointBack(w.effects, w.attempts) && HostsPointBack(w.effects, w.hosts)
    ensures AttemptsPointBack(v.effects, v.attempts) && HostsPointBack(v.effects, v.hosts)
  {
    HostNamesItsEffect(e);
    hide Belongs, ChainOf, EffectOfHost;
  }

  lemma AddKeepsSizes(w: Wiring, v: Wiring, e: Str)
    requires Adds(w, v, e) && |w.effects| == |w.attempts| && GoalsHaveEffects(w.goals, w.effects)
    ensures |v.effects| == |v.attempts| == |w.attempts| + 1 && GoalsHaveEffects(v.goals, v.effects)
  {
    hide Belongs, ChainOf, FreshPair;
  }

  lemma AddKeepsCoupled(w: Wiring, v: Wiring, e: Str)
    requires CoupledInv(w) && Adds(w, v, e)
    ensures CoupledInv(v) && ObservedForwards(w, v) && |v.attempts| == |w.attempts| + 1
  {
    AddMovesForwards(w, v, e);
    AddKeepsBackPointers(w, v, e);
    AddKeepsSizes(w, v, e);
    forall f | f in v.effects ensures EffectHolds(v, f) {
      if f == e { AddHoldsOne(w, v, e); } else { AddKeepsOther(w, v, e, f); }
    }
    hide EffectHolds, Adds, ObservedForwards, AttemptsPointBack, HostsPointBack, GoalsHaveEffects;
  }

  lemma CreateEstablishesCoupled(r: Request, c: Startup, u: Snapshot)
    requires CreatesLoop(r, c, u)
    ensures CoupledInv(WiringOf(u)) && |u.attempts| == 1
  {
    var chain := GoalChain(r.loop, c.planDigest, c.goalId, c.slice);
    assert ChainOf(chain.effectRef) == Some(chain);
    assert |u.effects.Keys| == 1 && |u.attempts.Keys| == 1;
  }
}
