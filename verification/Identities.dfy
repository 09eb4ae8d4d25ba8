/** What creating a loop adds to the authority tables, and which record keeps it from doing so. */
module Identities {
  import opened Base
  import opened Records
  import opened Commands
  import opened StoreModel
  import opened SqliteStore
  import opened CrashRefinement

  // What is added ----------------------------------------------------------------------------------------------

  lemma {:induction false} ActorsAdded(t: Tables, ctx: Context, refs: seq<Str>)
    requires (forall ref :: ref in refs ==> ref in ctx.actors) && WithActors(t, ctx, refs).trouble == NoTrouble
    ensures var u := WithActors(t, ctx, refs).tables.actors;
            && (forall a :: a in u <==> a in t.actors || a in refs)
            && (forall a :: a in refs ==> a !in t.actors && u[a] == ctx.actors[a])
            && (forall a :: a in t.actors ==> u[a] == t.actors[a])
    decreases |refs|
  {
    if refs != [] {
      var u := WithActor(t, ctx, refs[0]).tables;
      assert u.actors == t.actors[refs[0] := ctx.actors[refs[0]]];
      hide WithActor;
      ActorsAdded(u, ctx, refs[1..]);
    }
  }

  lemma {:induction false} GrantsAdded(t: Tables, ctx: Context, refs: seq<Str>)
    requires (forall ref :: ref in refs ==> ref in ctx.grants) && WithGrants(t, ctx, refs).trouble == NoTrouble
    ensures var u := WithGrants(t, ctx, refs).tables.grants;
            && (forall g :: g in u <==> g in t.grants || g in refs)
            && (forall g :: g in refs ==> g !in t.grants && u[g] == ctx.grants[g])
            && (forall g :: g in t.grants ==> u[g] == t.grants[g])
    decreases |refs|
  {
    if refs != [] {
      var u := WithGrant(t, ctx, refs[0]).tables;
      assert u.grants == t.grants[refs[0] := ctx.grants[refs[0]]];
      hide WithGrant;
      GrantsAdded(u, ctx, refs[1..]);
    }
  }

  /** The orders list every actor and every grant of the loop once. */
  lemma OrdersCover(core: Core, ctx: Context, loop: Str)
    requires Sorts(core)
    ensures NoRepeats(ActorOrder(core, ctx, loop)) && NoRepeats(GrantOrder(core, ctx, loop))
    ensures forall a :: a in ActorOrder(core, ctx, loop) <==> a in ActorsOf(ctx, loop)
    ensures forall g :: g in GrantOrder(core, ctx, loop) <==> g in GrantsOf(ctx, loop)
  {
    assert ActorOrder(core, ctx, loop) == core.sorted(ActorsOf(ctx, loop).Keys);
    assert GrantOrder(core, ctx, loop) == core.sorted(GrantsOf(ctx, loop).Keys);
    hide ActorsOf, GrantsOf, Known, NoRepeats;
  }

  /** Some identity of the loop is already stored under its key. */
  predicate IdentityTaken(t: Tables, ctx: Context, loop: Str) {
    || !(ActorsOf(ctx, loop).Keys !! t.actors.Keys)
    || !(GrantsOf(ctx, loop).Keys !! t.grants.Keys)
    || !(RootsOf(ctx, loop).Keys !! t.roots.Keys)
  }

  lemma ActorsMerge(t: Tables, ctx: Context, loop: Str, refs: seq<Str>)
    requires (forall a :: a in refs <==> a in ActorsOf(ctx, loop)) && WithActors(t, ctx, refs).trouble == NoTrouble
    ensures WithActors(t, ctx, refs).tables.actors == t.actors + ActorsOf(ctx, loop)
    ensures ActorsOf(ctx, loop).Keys !! t.actors.Keys
  {
    ActorsAdded(t, ctx, refs);
    hide WithActors;
  }

  lemma GrantsMerge(t: Tables, ctx: Context, loop: Str, refs: seq<Str>)
    requires (forall g :: g in refs <==> g in GrantsOf(ctx, loop)) && WithGrants(t, ctx, refs).trouble == NoTrouble
    ensures WithGrants(t, ctx, refs).tables.grants == t.grants + GrantsOf(ctx, loop)
    ensures GrantsOf(ctx, loop).Keys !! t.grants.Keys
  {
    GrantsAdded(t, ctx, refs);
    hide WithGrants;
  }

  lemma RegistryKnown(ctx: Context, loop: Str)
    ensures forall a :: a in ActorsOf(ctx, loop) ==> a in ctx.actors
    ensures forall g :: g in GrantsOf(ctx, loop) ==> g in ctx.grants
  {
  }

  /** The grants of a registry, inserted behind its actors. */
  lemma GrantsBehindActors(core: Core, t: Tables, ctx: Context, loop: Str)
    requires Sorts(core)
    ensures var u := WithActors(t, ctx, ActorOrder(core, ctx, loop)).tables;
            var v := WithGrants(u, ctx, GrantOrder(core, ctx, loop)).tables;
            u.grants == t.grants && u.roots == t.roots && v.actors == u.actors && v.roots == t.roots
  {
    RegistryKnown(ctx, loop);
    hide WithActors, WithGrants, ActorOrder, GrantOrder, ActorsOf, GrantsOf;
    ActorsFrame(t, ctx, ActorOrder(core, ctx, loop));
    GrantsFrame(WithActors(t, ctx, ActorOrder(core, ctx, loop)).tables, ctx, GrantOrder(core, ctx, loop));
  }

  /** A registry is stored as a whole, over free keys. */
  lemma RegistryAdds(core: Core, t: Tables, ctx: Context, loop: Str)
    requires Sorts(core) && WithRegistry(core, t, ctx, loop).trouble == NoTrouble
    ensures !IdentityTaken(t, ctx, loop)
    ensures var u := WithRegistry(core, t, ctx, loop).tables;
            && u.actors == t.actors + ActorsOf(ctx, loop) && u.grants == t.grants + GrantsOf(ctx, loop)
            && u.roots == t.roots + RootsOf(ctx, loop)
  {
    hide WithActors, WithGrants, ActorOrder, GrantOrder, ActorsOf, GrantsOf, RootsOf, Sorts, NoRepeats;
    RegistryKnown(ctx, loop);
    OrdersCover(core, ctx, loop);
    GrantsBehindActors(core, t, ctx, loop);
    ActorsMerge(t, ctx, loop, ActorOrder(core, ctx, loop));
    GrantsMerge(WithActors(t, ctx, ActorOrder(core, ctx, loop)).tables, ctx, loop, GrantOrder(core, ctx, loop));
  }

  // What fails first -------------------------------------------------------------------------------------------

  /** The first of two troubles, if any. */
  function OrElse(a: Trouble, b: Trouble): Trouble { if a != NoTrouble then a else b }

  /** A record without encoding is refused; a taken key is the database's business. */
  function RecordTrouble(encoding: Encoding, taken: bool): Trouble {
    if encoding.Unencoded? then Refusal else if taken then DatabaseError else NoTrouble
  }

  function ActorsTrouble(t: Tables, ctx: Context, refs: seq<Str>): Trouble
    requires forall ref :: ref in refs ==> ref in ctx.actors
  {
    if refs == [] then NoTrouble
    else OrElse(RecordTrouble(ctx.actors[refs[0]].encoding, refs[0] in t.actors), ActorsTrouble(t, ctx, refs[1..]))
  }

  function GrantsTrouble(t: Tables, ctx: Context, refs: seq<Str>): Trouble
    requires forall ref :: ref in refs ==> ref in ctx.grants
  {
    if refs == [] then NoTrouble
    else OrElse(RecordTrouble(ctx.grants[refs[0]].encoding, refs[0] in t.grants), GrantsTrouble(t, ctx, refs[1..]))
  }

  lemma {:induction false} OtherActor(t: Tables, u: Tables, ctx: Context, refs: seq<Str>, ref: Str)
    requires (forall r :: r in refs ==> r in ctx.actors) && ref !in refs && u.actors.Keys == t.actors.Keys + {ref}
    ensures ActorsTrouble(u, ctx, refs) == ActorsTrouble(t, ctx, refs)
  {
    if refs != [] { OtherActor(t, u, ctx, refs[1..], ref); }
  }

  lemma {:induction false} OtherGrant(t: Tables, u: Tables, ctx: Context, refs: seq<Str>, ref: Str)
    requires (forall r :: r in refs ==> r in ctx.grants) && ref !in refs && u.grants.Keys == t.grants.Keys + {ref}
    ensures GrantsTrouble(u, ctx, refs) == GrantsTrouble(t, ctx, refs)
  {
    if refs != [] { OtherGrant(t, u, ctx, refs[1..], ref); }
  }

  lemma NoRepeatsTail(refs: seq<Str>)
    requires NoRepeats(refs) && refs != []
    ensures NoRepeats(refs[1..]) && refs[0] !in refs[1..]
  {
  }

  /** Inserting actors in order fails as the first one that does not fit the table before. */
  lemma {:induction false} ActorsFail(t: Tables, ctx: Context, refs: seq<Str>)
    requires (forall ref :: ref in refs ==> ref in ctx.actors) && NoRepeats(refs)
    ensures WithActors(t, ctx, refs).trouble == ActorsTrouble(t, ctx, refs)
    decreases |refs|
  {
    if refs != [] && WithActor(t, ctx, refs[0]).trouble == NoTrouble {
      NoRepeatsTail(refs);
      var u := WithActor(t, ctx, refs[0]).tables;
      assert u.actors.Keys == t.actors.Keys + {refs[0]};
      ActorsFail(u, ctx, refs[1..]);
      OtherActor(t, u, ctx, refs[1..], refs[0]);
    }
  }

  lemma {:induction false} GrantsFail(t: Tables, ctx: Context, refs: seq<Str>)
    requires (forall ref :: ref in refs ==> ref in ctx.grants) && NoRepeats(refs)
    ensures WithGrants(t, ctx, refs).trouble == GrantsTrouble(t, ctx, refs)
    decreases |refs|
  {
    if refs != [] && WithGrant(t, ctx, refs[0]).trouble == NoTrouble {
      NoRepeatsTail(refs);
      var u := WithGrant(t, ctx, refs[0]).tables;
      assert u.grants.Keys == t.grants.Keys + {refs[0]};
      GrantsFail(u, ctx, refs[1..]);
      OtherGrant(t, u, ctx, refs[1..], refs[0]);
    }
  }

  /** The trouble of the first actor, or else of the first grant, of the loop that does not fit. */
  function RegistryTrouble(core: Core, t: Tables, ctx: Context, loop: Str): Trouble {
    OrElse(ActorsTrouble(t, ctx, ActorOrder(core, ctx, loop)), GrantsTrouble(t, ctx, GrantOrder(core, ctx, loop)))
  }

  lemma {:induction false} SameGrants(t: Tables, u: Tables, ctx: Context, refs: seq<Str>)
    requires (forall ref :: ref in refs ==> ref in ctx.grants) && u.grants == t.grants
    ensures GrantsTrouble(u, ctx, refs) == GrantsTrouble(t, ctx, refs)
  {
    if refs != [] { SameGrants(t, u, ctx, refs[1..]); }
  }

  lemma {:induction false} SameActors(t: Tables, u: Tables, ctx: Context, refs: seq<Str>)
    requires (forall ref :: ref in refs ==> ref in ctx.actors) && u.actors == t.actors
    ensures ActorsTrouble(u, ctx, refs) == ActorsTrouble(t, ctx, refs)
  {
    if refs != [] { SameActors(t, u, ctx, refs[1..]); }
  }

  lemma RegistryFails(core: Core, t: Tables, ctx: Context, loop: Str)
    requires Sorts(core) && RootsOf(ctx, loop).Keys !! t.roots.Keys
    ensures WithRegistry(core, t, ctx, loop).trouble == RegistryTrouble(core, t, ctx, loop)
  {
    hide WithActors, WithGrants, ActorOrder, GrantOrder, ActorsOf, GrantsOf, RootsOf, Sorts, NoRepeats, ActorsTrouble,
         GrantsTrouble;
    RegistryKnown(ctx, loop);
    OrdersCover(core, ctx, loop);
    GrantsBehindActors(core, t, ctx, loop);
    ActorsFail(t, ctx, ActorOrder(core, ctx, loop));
    var u := WithActors(t, ctx, ActorOrder(core, ctx, loop)).tables;
    GrantsFail(u, ctx, GrantOrder(core, ctx, loop));
    SameGrants(t, u, ctx, GrantOrder(core, ctx, loop));
  }

  /** An actor or grant that can be stored. */
  predicate RecordFits(encoding: Encoding, taken: bool) { encoding.Encoded? && !taken }

  lemma {:induction false} ActorsTroubleIsNone(t: Tables, ctx: Context, refs: seq<Str>)
    requires forall ref :: ref in refs ==> ref in ctx.actors
    ensures ActorsTrouble(t, ctx, refs) == NoTrouble
            <==> forall ref :: ref in refs ==> RecordFits(ctx.actors[ref].encoding, ref in t.actors)
  {
    if refs != [] { ActorsTroubleIsNone(t, ctx, refs[1..]); }
  }

  lemma {:induction false} GrantsTroubleIsNone(t: Tables, ctx: Context, refs: seq<Str>)
    requires forall ref :: ref in refs ==> ref in ctx.grants
    ensures GrantsTrouble(t, ctx, refs) == NoTrouble
            <==> forall ref :: ref in refs ==> RecordFits(ctx.grants[ref].encoding, ref in t.grants)
  {
    if refs != [] { GrantsTroubleIsNone(t, ctx, refs[1..]); }
  }
}
