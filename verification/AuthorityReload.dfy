/** Reading the authority tables back, as opening a store without a registry and checking its integrity do: it succeeds
    exactly as long as every commit was made under a registry that is sound for what it stores. Rows of different loops
    about one issuer come in an order the query leaves open, so this is proved both for a given order and for all. */
module AuthorityReload {
  import opened Base
  import opened Records
  import opened Commands
  import opened StoreModel
  import opened SqliteStore
  import opened CrashRefinement
  import opened Refinement
  import opened Identities
  import opened Outbox
  import opened OutboxRuns
  import Lin = Linearisation

  // `_load_authority` ------------------------------------------------------------------------------------------

  type RootRows = map<(Str, Issuer), Str>

  /** Every row once; rows of different loops about one issuer come in any order. */
  ghost predicate Lists(rows: seq<(Str, Issuer)>, roots: RootRows) {
    (forall k :: k in rows <==> k in roots) && NoRepeats(rows)
  }

  /** The dictionary of trusted issuers; a later row replaces an earlier one about the same issuer. */
  function Merged(roots: RootRows, rows: seq<(Str, Issuer)>): Roots
    requires forall k :: k in rows ==> k in roots
  {
    if rows == [] then map[]
    else Merged(roots, rows[..|rows| - 1])[rows[|rows| - 1].1 := roots[rows[|rows| - 1]]]
  }

  predicate ActorLoads(actor: Actor, key: Str, roots: Roots) {
    actor.ref == key && Vouched(roots, Issuer(ActorTrust, actor.issuer), actor.issuerTrust)
  }

  predicate GrantLoads(grant: Grant, key: Str, actors: set<Str>, roots: Roots) {
    && grant.ref == key && grant.intact && grant.actor in actors && grant.issuer in actors
    && Vouched(roots, Issuer(GrantTrust, grant.issuer), grant.issuerTrust)
  }

  predicate ReceiptLoads(receipt: Receipt, key: Str, roots: Roots) {
    receipt.ref == key && Vouched(roots, Issuer(ReceiptTrust, receipt.issuer), receipt.issuerTrust)
  }

  /** `_load_authority` returns instead of raising, when it reads the trusted issuers in the given order. */
  predicate Loads(t: Tables, rows: seq<(Str, Issuer)>)
    requires Lists(rows, t.roots)
  {
    var roots := Merged(t.roots, rows);
    && (forall a :: a in t.actors ==> ActorLoads(t.actors[a], a, roots))
    && (forall g :: g in t.grants ==> GrantLoads(t.grants[g], g, t.actors.Keys, roots))
    && (forall r :: r in t.receipts ==> ReceiptLoads(t.receipts[r], r, roots))
  }

  /** It returns, whatever the order. */
  ghost predicate Reloads(t: Tables) { forall rows :: Lists(rows, t.roots) ==> Loads(t, rows) }

  // The order does not matter when the loops agree -------------------------------------------------------------

  /** Some loop trusts the issuer, and all that do trust the claim. */
  predicate VouchedBy(roots: RootRows, issuer: Issuer, claim: Str) {
    && (exists k :: k in roots && k.1 == issuer)
    && (forall k :: k in roots && k.1 == issuer ==> roots[k] == claim)
  }

  lemma {:induction false} MergedNames(roots: RootRows, rows: seq<(Str, Issuer)>, issuer: Issuer)
    requires forall k :: k in rows ==> k in roots
    ensures issuer in Merged(roots, rows) <==> exists k :: k in rows && k.1 == issuer
  {
    if rows != [] {
      var front, last := rows[..|rows| - 1], rows[|rows| - 1];
      assert rows == front + [last];
      MergedNames(roots, front, issuer);
    }
  }

  lemma {:induction false} MergedHolds(roots: RootRows, rows: seq<(Str, Issuer)>, issuer: Issuer, claim: Str)
    requires forall k :: k in rows ==> k in roots
    requires forall k :: k in roots && k.1 == issuer ==> roots[k] == claim
    ensures issuer in Merged(roots, rows) ==> Merged(roots, rows)[issuer] == claim
  {
    if rows != [] { MergedHolds(roots, rows[..|rows| - 1], issuer, claim); }
  }

  lemma {:induction false} Listing(keys: set<(Str, Issuer)>) returns (rows: seq<(Str, Issuer)>)
    ensures (forall k :: k in rows <==> k in keys) && NoRepeats(rows)
    decreases |keys|
  {
    rows := [];
    if keys != {} {
      var k :| k in keys;
      var rest := Listing(keys - {k});
      rows := rest + [k];
    }
  }

  /** An issuer is trusted with a claim under every order of the rows exactly if the loops agree on it. */
  lemma VouchedUnderEveryOrder(roots: RootRows, issuer: Issuer, claim: Str)
    ensures VouchedBy(roots, issuer, claim)
            <==> forall rows :: Lists(rows, roots) ==> Vouched(Merged(roots, rows), issuer, claim)
  {
    if VouchedBy(roots, issuer, claim) {
      forall rows | Lists(rows, roots) ensures Vouched(Merged(roots, rows), issuer, claim) {
        MergedHolds(roots, rows, issuer, claim);
        MergedNames(roots, rows, issuer);
        var k :| k in roots && k.1 == issuer;
        assert k in rows;
      }
    } else {
      var rows := DoubtfulOrder(roots, issuer, claim);
    }
  }

  /** An order under which an issuer about which the loops disagree is not trusted. */
  lemma DoubtfulOrder(roots: RootRows, issuer: Issuer, claim: Str) returns (rows: seq<(Str, Issuer)>)
    requires !VouchedBy(roots, issuer, claim)
    ensures Lists(rows, roots) && !Vouched(Merged(roots, rows), issuer, claim)
  {
    if k :| k in roots && k.1 == issuer && roots[k] != claim {
      var front := Listing(roots.Keys - {k});
      rows := front + [k];
      assert rows[..|front|] == front;
    } else {
      rows := Listing(roots.Keys);
      MergedNames(roots, rows, issuer);
    }
  }

  // What has to be stored --------------------------------------------------------------------------------------

  /** When the dictionary made of the rows trusts an issuer with a claim. */
  type Judge = (RootRows, Issuer, Str) -> bool

  /** The judge of a given row order; `VouchedBy` is the judge of all orders together. */
  ghost function InOrder(order: RootRows -> seq<(Str, Issuer)>): Judge {
    (roots, issuer, claim) => Lists(order(roots), roots) && Vouched(Merged(roots, order(roots)), issuer, claim)
  }

  predicate ActorsSound(actors: map<Str, Actor>, roots: RootRows, trusts: Judge) {
    forall a :: a in actors ==>
      actors[a].ref == a && trusts(roots, Issuer(ActorTrust, actors[a].issuer), actors[a].issuerTrust)
  }

  predicate GrantsSound(grants: map<Str, Grant>, actors: set<Str>, roots: RootRows, trusts: Judge) {
    forall g :: g in grants ==>
      && grants[g].ref == g && grants[g].intact && grants[g].actor in actors && grants[g].issuer in actors
      && trusts(roots, Issuer(GrantTrust, grants[g].issuer), grants[g].issuerTrust)
  }

  predicate ReceiptSound(receipt: Receipt, key: Str, roots: RootRows, trusts: Judge) {
    receipt.ref == key && trusts(roots, Issuer(ReceiptTrust, receipt.issuer), receipt.issuerTrust)
  }

  predicate ReceiptsSound(receipts: map<Str, Receipt>, roots: RootRows, trusts: Judge) {
    forall r :: r in receipts ==> ReceiptSound(receipts[r], r, roots, trusts)
  }

  predicate AuthoritySound(t: Tables, trusts: Judge) {
    && ActorsSound(t.actors, t.roots, trusts) && GrantsSound(t.grants, t.actors.Keys, t.roots, trusts)
    && ReceiptsSound(t.receipts, t.roots, trusts)
  }

  /** In a given order, the authority tables can be read back exactly if they are sound under its judge. */
  lemma LoadsExactly(t: Tables, order: RootRows -> seq<(Str, Issuer)>)
    requires Lists(order(t.roots), t.roots)
    ensures Loads(t, order(t.roots)) <==> AuthoritySound(t, InOrder(order))
  {
    hide Merged, Lists;
  }

  lemma SoundLoads(t: Tables, rows: seq<(Str, Issuer)>)
    requires AuthoritySound(t, VouchedBy) && Lists(rows, t.roots)
    ensures Loads(t, rows)
  {
    forall issuer, claim | VouchedBy(t.roots, issuer, claim) ensures Vouched(Merged(t.roots, rows), issuer, claim) {
      VouchedUnderEveryOrder(t.roots, issuer, claim);
    }
    hide VouchedBy, Vouched, Merged, Lists;
  }

  lemma DoubtIsUnloadable(t: Tables, issuer: Issuer, claim: Str)
    requires Reloads(t)
    requires forall rows :: Lists(rows, t.roots) && Loads(t, rows) ==> Vouched(Merged(t.roots, rows), issuer, claim)
    ensures VouchedBy(t.roots, issuer, claim)
  {
    hide Loads, Vouched, VouchedBy, Merged, Lists;
    VouchedUnderEveryOrder(t.roots, issuer, claim);
  }

  lemma ReloadableIsSound(t: Tables)
    requires Reloads(t)
    ensures AuthoritySound(t, VouchedBy)
  {
    var rows := Listing(t.roots.Keys);
    assert Loads(t, rows);
    hide VouchedBy, Merged, Lists, Reloads;
    forall a | a in t.actors ensures VouchedBy(t.roots, Issuer(ActorTrust, t.actors[a].issuer), t.actors[a].issuerTrust) {
      DoubtIsUnloadable(t, Issuer(ActorTrust, t.actors[a].issuer), t.actors[a].issuerTrust);
    }
    forall g | g in t.grants ensures VouchedBy(t.roots, Issuer(GrantTrust, t.grants[g].issuer), t.grants[g].issuerTrust) {
      DoubtIsUnloadable(t, Issuer(GrantTrust, t.grants[g].issuer), t.grants[g].issuerTrust);
    }
    forall r | r in t.receipts
      ensures VouchedBy(t.roots, Issuer(ReceiptTrust, t.receipts[r].issuer), t.receipts[r].issuerTrust)
    {
      DoubtIsUnloadable(t, Issuer(ReceiptTrust, t.receipts[r].issuer), t.receipts[r].issuerTrust);
    }
  }

  /** In whatever order SQLite returns them, the authority tables can be read back exactly if they are sound. */
  lemma ReloadsExactly(t: Tables)
    ensures Reloads(t) <==> AuthoritySound(t, VouchedBy)
  {
    if Reloads(t) { ReloadableIsSound(t); }
    if AuthoritySound(t, VouchedBy) {
      forall rows | Lists(rows, t.roots) ensures Loads(t, rows) { SoundLoads(t, rows); }
    }
  }

  // One commit -------------------------------------------------------------------------------------------------

  function RootsAfter(t: Tables, c: Input): RootRows {
    if c.command.request.payload.Create? then t.roots + RootsOf(c.context, c.command.request.loop) else t.roots
  }

  /** The issuers of stored records are trusted with their claims. */
  predicate ActorsTrusted(actors: map<Str, Actor>, roots: RootRows, trusts: Judge) {
    forall a :: a in actors ==> trusts(roots, Issuer(ActorTrust, actors[a].issuer), actors[a].issuerTrust)
  }

  predicate GrantsTrusted(grants: map<Str, Grant>, roots: RootRows, trusts: Judge) {
    forall g :: g in grants ==> trusts(roots, Issuer(GrantTrust, grants[g].issuer), grants[g].issuerTrust)
  }

  predicate ReceiptsTrusted(receipts: map<Str, Receipt>, roots: RootRows, trusts: Judge) {
    forall r :: r in receipts ==> trusts(roots, Issuer(ReceiptTrust, receipts[r].issuer), receipts[r].issuerTrust)
  }

  predicate StoredTrusted(t: Tables, roots: RootRows, trusts: Judge) {
    && ActorsTrusted(t.actors, roots, trusts) && GrantsTrusted(t.grants, roots, trusts)
    && ReceiptsTrusted(t.receipts, roots, trusts)
  }

  /** The receipts a command has the store keep are filed under their own references and trusted; a registry under which a
      loop is created has, for that loop, only such actors and intact grants between known actors, and its trusted issuers
      leave stored records trusted. */
  predicate RegistrySound(t: Tables, c: Input, trusts: Judge) {
    var r, ctx, roots := c.command.request, c.context, RootsAfter(t, c);
    && (forall ref :: ref in ReceiptsNamed(r) && ref !in t.receipts && ref in ctx.receipts ==>
          ReceiptSound(ctx.receipts[ref], ref, roots, trusts))
    && (r.payload.Create? ==>
          && ActorsSound(ActorsOf(ctx, r.loop), roots, trusts)
          && GrantsSound(GrantsOf(ctx, r.loop), t.actors.Keys + ActorsOf(ctx, r.loop).Keys, roots, trusts)
          && StoredTrusted(t, roots, trusts))
  }

  /** What a commit leaves in the authority tables. */
  ghost predicate Adopts(t: Tables, u: Tables, c: Input) {
    var r, ctx := c.command.request, c.context;
    && u.roots == RootsAfter(t, c)
    && u.actors == (if r.payload.Create? then t.actors + ActorsOf(ctx, r.loop) else t.actors)
    && u.grants == (if r.payload.Create? then t.grants + GrantsOf(ctx, r.loop) else t.grants)
    && (r.payload.Create? ==> !IdentityTaken(t, ctx, r.loop))
    && (forall ref :: ref in u.receipts <==> ref in t.receipts || ref in ReceiptsNamed(r))
    && (forall ref :: ref in t.receipts ==> u.receipts[ref] == t.receipts[ref])
    && (forall ref :: ref in ReceiptsNamed(r) && ref !in t.receipts ==>
          ref in ctx.receipts && u.receipts[ref] == ctx.receipts[ref])
  }

  lemma {:induction false} ReceiptsAdopted(t: Tables, c: Input, refs: seq<Str>)
    requires WithReceipts(t, c, refs).trouble == NoTrouble
    ensures forall ref :: ref in WithReceipts(t, c, refs).tables.receipts <==> ref in t.receipts || ref in refs
    decreases |refs|
  {
    if refs != [] {
      var u := WithReceipt(t, c, refs[0]).tables;
      assert u.receipts.Keys == t.receipts.Keys + {refs[0]};
      ReceiptsAdopted(u, c, refs[1..]);
    }
    hide WithReceipt;
  }

  lemma SyncAdopts(core: Core, t: Tables, c: Input, s: Snapshot)
    requires Sorts(core) && Synced(core, t, c, s).trouble == NoTrouble
    ensures Adopts(t, Synced(core, t, c, s).tables, c)
  {
    var o := WithOutbox(core, t, s).tables;
    hide WithOutbox, WithIdentity, WithReceipts, ReceiptsNamed, IdentityTaken, Registered, ReceiptsFrom;
    OutboxOnlyChanges(core, t, s);
    IdentitySynced(core, o, c);
    var i := WithIdentity(core, o, c).tables;
    AllReceiptsFrame(core, i, c);
    ReceiptsAdopted(i, c, core.sorted(ReceiptsNamed(c.command.request)));
    AdoptionCarries(t, o, i, WithAllReceipts(core, i, c).tables, c);
  }

  lemma AdoptionCarries(t: Tables, o: Tables, i: Tables, u: Tables, c: Input)
    requires o == t.(outbox := o.outbox) && Registered(o, i, c) && i.receipts == o.receipts && OnlyReceipts(i, u, c)
    requires forall ref :: ref in u.receipts <==> ref in i.receipts || ref in ReceiptsNamed(c.command.request)
    requires c.command.request.payload.Create? ==> !IdentityTaken(o, c.context, c.command.request.loop)
    ensures Adopts(t, u, c)
  {
    hide ActorsOf, GrantsOf, RootsOf, ReceiptsNamed;
  }

  lemma CommitAdopts(core: Core, db: Tables, c: Input, u: Tables)
    requires Sorts(core) && SyncedCommit(core, db, c, u)
    ensures Adopts(db, u, c)
  {
    hide Synced, Saved, Attempted, Adopts, Sorts;
    var t := Attempted(core, SnapshotOf(db, c.command.request.loop), c).value;
    SavedOutbox(db, c, t);
    SyncAdopts(core, Saved(db, c, t), c, t.snapshot);
    AdoptionIsLocal(Saved(db, c, t), db, u, c);
  }

  lemma AdoptionIsLocal(s: Tables, t: Tables, u: Tables, c: Input)
    requires s == t.(operations := s.operations, loops := s.loops, events := s.events) && Adopts(s, u, c)
    ensures Adopts(t, u, c)
  {
    hide ActorsOf, GrantsOf, RootsOf, ReceiptsNamed;
  }

  lemma ActorsReload(actors: map<Str, Actor>, own: map<Str, Actor>, roots: RootRows, after: RootRows, trusts: Judge)
    requires own.Keys !! actors.Keys && ActorsSound(actors, roots, trusts)
    ensures ActorsSound(actors + own, after, trusts)
            <==> ActorsSound(own, after, trusts) && ActorsTrusted(actors, after, trusts)
  {
    assert forall a :: a in actors ==> a in actors + own && (actors + own)[a] == actors[a];
    assert forall a :: a in own ==> a in actors + own && (actors + own)[a] == own[a];
  }

  lemma GrantsReload(
    grants: map<Str, Grant>, own: map<Str, Grant>, known: set<Str>, actors: set<Str>, roots: RootRows, after: RootRows,
    trusts: Judge)
    requires own.Keys !! grants.Keys && known <= actors && GrantsSound(grants, known, roots, trusts)
    ensures GrantsSound(grants + own, actors, after, trusts)
            <==> GrantsSound(own, actors, after, trusts) && GrantsTrusted(grants, after, trusts)
  {
    assert forall g :: g in grants ==> g in grants + own && (grants + own)[g] == grants[g];
    assert forall g :: g in own ==> g in grants + own && (grants + own)[g] == own[g];
  }

  predicate NewReceiptsSound(kept: map<Str, Receipt>, receipts: map<Str, Receipt>, roots: RootRows, trusts: Judge) {
    forall r :: r in receipts && r !in kept ==> ReceiptSound(receipts[r], r, roots, trusts)
  }

  lemma ReceiptsReload(
    kept: map<Str, Receipt>, receipts: map<Str, Receipt>, roots: RootRows, after: RootRows, trusts: Judge)
    requires ReceiptsSound(kept, roots, trusts) && forall r :: r in kept ==> r in receipts && receipts[r] == kept[r]
    ensures ReceiptsSound(receipts, after, trusts)
            <==> NewReceiptsSound(kept, receipts, after, trusts) && ReceiptsTrusted(kept, after, trusts)
  {
  }

  lemma NamedAreNew(t: Tables, u: Tables, c: Input, trusts: Judge)
    requires Adopts(t, u, c)
    ensures NewReceiptsSound(t.receipts, u.receipts, u.roots, trusts) <==>
              forall ref :: ref in ReceiptsNamed(c.command.request) && ref !in t.receipts && ref in c.context.receipts ==>
                ReceiptSound(c.context.receipts[ref], ref, u.roots, trusts)
  {
    hide ActorsOf, GrantsOf, RootsOf, ReceiptSound, RootsAfter, IdentityTaken, ReceiptsNamed;
  }

  lemma CreationReloads(t: Tables, u: Tables, c: Input, trusts: Judge)
    requires AuthoritySound(t, trusts) && Adopts(t, u, c) && c.command.request.payload.Create?
    ensures var ctx, loop := c.context, c.command.request.loop;
            AuthoritySound(u, trusts) <==>
              && ActorsSound(ActorsOf(ctx, loop), u.roots, trusts)
              && GrantsSound(GrantsOf(ctx, loop), u.actors.Keys, u.roots, trusts)
              && NewReceiptsSound(t.receipts, u.receipts, u.roots, trusts) && StoredTrusted(t, u.roots, trusts)
  {
    hide ActorsSound, GrantsSound, ReceiptsSound, ActorsOf, GrantsOf, RootsOf, NewReceiptsSound, ActorsTrusted,
         GrantsTrusted, ReceiptsTrusted, ReceiptsNamed;
    var ctx, loop := c.context, c.command.request.loop;
    ActorsReload(t.actors, ActorsOf(ctx, loop), t.roots, u.roots, trusts);
    GrantsReload(t.grants, GrantsOf(ctx, loop), t.actors.Keys, u.actors.Keys, t.roots, u.roots, trusts);
    ReceiptsReload(t.receipts, u.receipts, t.roots, u.roots, trusts);
  }

  lemma UpdateReloads(t: Tables, u: Tables, c: Input, trusts: Judge)
    requires AuthoritySound(t, trusts) && Adopts(t, u, c) && !c.command.request.payload.Create?
    ensures AuthoritySound(u, trusts) <==> NewReceiptsSound(t.receipts, u.receipts, u.roots, trusts)
  {
    hide ActorsSound, GrantsSound, ReceiptSound, ReceiptsNamed;
    assert forall r :: r in t.receipts ==> r in u.receipts && u.receipts[r] == t.receipts[r];
  }

  /** After a commit the authority tables can be read back exactly if the registry was sound for it. */
  lemma CommitReloads(core: Core, db: Tables, c: Input, u: Tables, trusts: Judge)
    requires Sorts(core) && AuthoritySound(db, trusts) && SyncedCommit(core, db, c, u)
    ensures AuthoritySound(u, trusts) <==> RegistrySound(db, c, trusts)
  {
    CommitAdopts(core, db, c, u);
    hide SyncedCommit, Sorts, AuthoritySound, ActorsSound, GrantsSound, ReceiptSound, ActorsOf, GrantsOf, RootsOf,
         StoredTrusted, NewReceiptsSound, ReceiptsNamed, IdentityTaken;
    NamedAreNew(db, u, c, trusts);
    if c.command.request.payload.Create? {
      CreationReloads(db, u, c, trusts);
      assert u.actors.Keys == db.actors.Keys + ActorsOf(c.context, c.command.request.loop).Keys;
    } else {
      UpdateReloads(db, u, c, trusts);
    }
  }

  // Stored claims under every order ----------------------------------------------------------------------------

  /** A registry that does not contradict what an issuer's stored record claims. */
  predicate Allows(roots: Roots, issuer: Issuer, claim: Str) { issuer in roots ==> roots[issuer] == claim }

  predicate Compatible(t: Tables, roots: Roots) {
    && (forall a :: a in t.actors ==> Allows(roots, Issuer(ActorTrust, t.actors[a].issuer), t.actors[a].issuerTrust))
    && (forall g :: g in t.grants ==> Allows(roots, Issuer(GrantTrust, t.grants[g].issuer), t.grants[g].issuerTrust))
    && (forall r :: r in t.receipts ==>
          Allows(roots, Issuer(ReceiptTrust, t.receipts[r].issuer), t.receipts[r].issuerTrust))
  }

  /** A claim stays vouched for exactly if the new loop's registry allows it. */
  lemma VouchedStays(roots: RootRows, ctx: Context, loop: Str, issuer: Issuer, claim: Str)
    requires RootsOf(ctx, loop).Keys !! roots.Keys && VouchedBy(roots, issuer, claim)
    ensures VouchedBy(roots + RootsOf(ctx, loop), issuer, claim) <==> Allows(ctx.roots, issuer, claim)
  {
    var after := roots + RootsOf(ctx, loop);
    var k :| k in roots && k.1 == issuer;
    assert k in after;
    if issuer in ctx.roots { assert (loop, issuer) in after && after[(loop, issuer)] == ctx.roots[issuer]; }
  }

  /** Under every order, the rows of a new loop leave stored records trusted exactly if its registry contradicts none of
      their claims. */
  lemma StoredStayTrusted(t: Tables, ctx: Context, loop: Str)
    requires AuthoritySound(t, VouchedBy) && RootsOf(ctx, loop).Keys !! t.roots.Keys
    ensures StoredTrusted(t, t.roots + RootsOf(ctx, loop), VouchedBy) <==> Compatible(t, ctx.roots)
  {
    var after := t.roots + RootsOf(ctx, loop);
    forall issuer, claim | VouchedBy(t.roots, issuer, claim)
      ensures VouchedBy(after, issuer, claim) <==> Allows(ctx.roots, issuer, claim)
    {
      VouchedStays(t.roots, ctx, loop, issuer, claim);
    }
    hide VouchedBy, Allows, RootsOf;
    assert forall r :: r in t.receipts ==> ReceiptSound(t.receipts[r], r, t.roots, VouchedBy);
  }

  // Runs -------------------------------------------------------------------------------------------------------

  /** A call that commits something did so under a registry that was sound for it. */
  predicate CallSound(core: Core, st: SqlState, call: SqlCall, trusts: Judge) {
    call.Apply? && SqlCalled(core, st, call).db.loops != st.db.loops ==> RegistrySound(st.db, call.input, trusts)
  }

  lemma CommitMoves(core: Core, db: Tables, c: Input, u: Tables)
    requires Lin.Counts(core) && OutboxInv(core, db) && SyncedCommit(core, db, c, u)
    requires c.command.request.loop in db.loops ==> RowIs(db.loops[c.command.request.loop])
    ensures u.loops != db.loops
  {
    hide Synced, Saved, OutboxInv;
    var s := SnapshotOf(db, c.command.request.loop);
    var t := Attempted(core, s, c).value;
    SavedOutbox(db, c, t);
    SyncedFrame(core, Saved(db, c, t), c, t.snapshot);
    assert t.snapshot.loopRevision == c.command.request.expectedRevision + 1 == RevisionNow(s) + 1;
    assert u.loops[c.command.request.loop].snapshot == t.snapshot;
  }

  lemma RowsAreRead(db: Tables, loop: Str)
    requires Ordered(db)
    ensures loop in db.loops ==> RowIs(db.loops[loop])
  {
    hide LogIs, LogOf;
  }

  lemma OperationsReload(t: Tables, u: Tables, trusts: Judge)
    requires AuthoritySound(t, trusts) && OperationsOnlyChange(t, u)
    ensures AuthoritySound(u, trusts) && u.loops == t.loops
  {
    hide ActorsSound, GrantsSound, ReceiptsSound;
  }

  lemma ApplyReloads(core: Core, db: Tables, c: Input, fault: Option<Boundary>, trusts: Judge)
    requires Sorts(core) && Lin.Counts(core) && OutboxInv(core, db) && Ordered(db) && AuthoritySound(db, trusts)
    ensures AuthoritySound(SqlApply(core, SqlState(db, None), c, fault).0.db, trusts)
            <==> CallSound(core, SqlState(db, None), Apply(c, fault), trusts)
  {
    hide SqlApply, OutboxInv, Ordered, AuthoritySound, RegistrySound, SyncedCommit, Sorts, Lin.Counts,
         OperationsOnlyChange;
    DurableOutbox(core, db, c, fault);
    RowsAreRead(db, c.command.request.loop);
    var u := SqlApply(core, SqlState(db, None), c, fault).0.db;
    if SyncedCommit(core, db, c, u) {
      CommitMoves(core, db, c, u);
      CommitReloads(core, db, c, u, trusts);
    } else {
      OperationsReload(db, u, trusts);
    }
  }

  lemma QuietReloads(t: Tables, u: Tables, trusts: Judge)
    requires AuthoritySound(t, trusts) && u.actors == t.actors && u.grants == t.grants && u.receipts == t.receipts
    requires u.roots == t.roots
    ensures AuthoritySound(u, trusts)
  {
    hide ActorsSound, GrantsSound, ReceiptsSound;
  }

  lemma ClaimIsQuiet(st: SqlState, ref: Str, executor: Str)
    ensures var t, u := st.db, SqlClaim(st, ref, executor).0.db;
            u.actors == t.actors && u.grants == t.grants && u.receipts == t.receipts && u.roots == t.roots
  {
    if st.txn.None? && Claimable(st.db, ref) { OwnershipIsQuiet(st.db, ref, executor); }
    hide Claimable, WithClaim;
  }

  lemma OwnershipIsQuiet(t: Tables, ref: Str, executor: Str)
    requires ref in t.outbox
    ensures var u := WithClaim(t, ref, executor);
            u.actors == t.actors && u.grants == t.grants && u.receipts == t.receipts && u.roots == t.roots
  {
  }

  lemma BlobIsQuiet(st: SqlState, content: string)
    ensures var t, u := st.db, SqlPutBlob(st, content).0.db;
            u.actors == t.actors && u.grants == t.grants && u.receipts == t.receipts && u.roots == t.roots
  {
    hide BlobDigest;
    var t, u := st.db, SqlPutBlob(st, content).0.db;
    if st.txn.None? && BlobDigest(content) !in t.blobs {
      assert u == t.(blobs := t.blobs[BlobDigest(content) := content]);
    } else {
      assert u == t;
    }
  }

  lemma CallReloads(core: Core, st: SqlState, call: SqlCall, trusts: Judge)
    requires Sorts(core) && Lin.Counts(core) && OutboxInv(core, st.db) && Ordered(st.db) && AuthoritySound(st.db, trusts)
    ensures AuthoritySound(SqlCalled(core, st, call).db, trusts) <==> CallSound(core, st, call, trusts)
  {
    hide OutboxInv, Ordered, AuthoritySound, RegistrySound, Sorts, Lin.Counts, SqlClaim, SqlPutBlob, Transact;
    match call
    case Apply(c, fault) =>
      if c.command.unencodable.None? && fault != Some(BeforeBegin) && st.txn.None? {
        assert st == SqlState(st.db, None);
        ApplyReloads(core, st.db, c, fault, trusts);
      }
    case Claim(ref, executor) =>
      ClaimIsQuiet(st, ref, executor);
      QuietReloads(st.db, SqlClaim(st, ref, executor).0.db, trusts);
    case PutBlob(content) => BlobIsQuiet(st, content); QuietReloads(st.db, SqlPutBlob(st, content).0.db, trusts);
    case Reopen =>
  }

  /** What the theorems about runs assume of the reducer and the string order. */
  ghost predicate Dependable(core: Core) {
    Disciplined(core) && Sorts(core) && WiresGrow(core) && NoConflict(core) && Lin.Counts(core)
  }

  predicate CallsSound(core: Core, calls: seq<SqlCall>, trusts: Judge) {
    forall k :: 0 <= k < |calls| ==> CallSound(core, SqlAfter(core, calls[..k]), calls[k], trusts)
  }

  predicate AlwaysSound(core: Core, calls: seq<SqlCall>, trusts: Judge) {
    forall k :: 0 <= k <= |calls| ==> AuthoritySound(SqlAfter(core, calls[..k]).db, trusts)
  }

  lemma RunStep(core: Core, calls: seq<SqlCall>, k: nat, trusts: Judge)
    requires Dependable(core) && k < |calls| && AuthoritySound(SqlAfter(core, calls[..k]).db, trusts)
    ensures AuthoritySound(SqlAfter(core, calls[..k + 1]).db, trusts)
            <==> CallSound(core, SqlAfter(core, calls[..k]), calls[k], trusts)
  {
    hide OutboxInv, Ordered, AuthoritySound, CallSound, Disciplined, Sorts, WiresGrow, NoConflict, Lin.Counts, SqlCalled,
         SoundBlobs, Abs;
    OutboxAlwaysAgrees(core, calls[..k]);
    RunRefines(core, calls[..k]);
    assert calls[..k + 1][..k] == calls[..k];
    CallReloads(core, SqlAfter(core, calls[..k]), calls[k], trusts);
  }

  lemma {:induction false} SoundSoFar(core: Core, calls: seq<SqlCall>, k: nat, trusts: Judge)
    requires Dependable(core) && CallsSound(core, calls, trusts) && k <= |calls|
    ensures AuthoritySound(SqlAfter(core, calls[..k]).db, trusts)
  {
    if k > 0 {
      SoundSoFar(core, calls, k - 1, trusts);
      hide AuthoritySound, CallSound, Dependable, SqlAfter;
      RunStep(core, calls, k - 1, trusts);
    }
  }

  /** The authority tables can be read back at every point of a run exactly if every commit of the run was made under a
      registry that was sound for it. */
  lemma AlwaysReloads(core: Core, calls: seq<SqlCall>, trusts: Judge)
    requires Dependable(core)
    ensures AlwaysSound(core, calls, trusts) <==> CallsSound(core, calls, trusts)
  {
    hide AuthoritySound, CallSound, Dependable, SqlAfter;
    if CallsSound(core, calls, trusts) {
      forall k | 0 <= k <= |calls| ensures AuthoritySound(SqlAfter(core, calls[..k]).db, trusts) {
        SoundSoFar(core, calls, k, trusts);
      }
    }
    if AlwaysSound(core, calls, trusts) {
      forall k | 0 <= k < |calls| ensures CallSound(core, SqlAfter(core, calls[..k]), calls[k], trusts) {
        assert AuthoritySound(SqlAfter(core, calls[..k + 1]).db, trusts);
        RunStep(core, calls, k, trusts);
      }
    }
  }

  /** `SQLiteStore.verify_integrity` returns instead of raising, in whatever order it reads the trusted issuers. */
  ghost predicate IntegrityHolds(core: Core, t: Tables) { Verified(core, t) && Reloads(t) }

  /** In whatever order, the integrity check never raises during a run exactly if every commit of the run was made under a
      registry that was sound for it. */
  lemma IntegrityExactly(core: Core, calls: seq<SqlCall>)
    requires Dependable(core)
    ensures (forall k :: 0 <= k <= |calls| ==> IntegrityHolds(core, SqlAfter(core, calls[..k]).db))
            <==> CallsSound(core, calls, VouchedBy)
  {
    forall k | 0 <= k <= |calls|
      ensures IntegrityHolds(core, SqlAfter(core, calls[..k]).db)
              <==> AuthoritySound(SqlAfter(core, calls[..k]).db, VouchedBy)
    {
      hide SqlAfter, Verified, Reloads, AuthoritySound, CallsSound, Disciplined, Sorts, WiresGrow, NoConflict, Lin.Counts;
      AlwaysVerified(core, calls[..k]);
      ReloadsExactly(SqlAfter(core, calls[..k]).db);
    }
    hide IntegrityHolds, AuthoritySound, CallsSound, Dependable, SqlAfter;
    AlwaysReloads(core, calls, VouchedBy);
  }

  /** The check returns when it reads the trusted issuers in a given order. */
  ghost predicate IntegrityInOrder(core: Core, t: Tables, order: RootRows -> seq<(Str, Issuer)>) {
    Lists(order(t.roots), t.roots) && Verified(core, t) && Loads(t, order(t.roots))
  }

  /** In a given order, it never raises during a run exactly if every commit was made under a registry that was sound in
      that order. */
  lemma IntegrityInOrderExactly(core: Core, calls: seq<SqlCall>, order: RootRows -> seq<(Str, Issuer)>)
    requires Dependable(core) && forall roots :: Lists(order(roots), roots)
    ensures (forall k :: 0 <= k <= |calls| ==> IntegrityInOrder(core, SqlAfter(core, calls[..k]).db, order))
            <==> CallsSound(core, calls, InOrder(order))
  {
    forall k | 0 <= k <= |calls|
      ensures IntegrityInOrder(core, SqlAfter(core, calls[..k]).db, order)
              <==> AuthoritySound(SqlAfter(core, calls[..k]).db, InOrder(order))
    {
      hide SqlAfter, Verified, Loads, AuthoritySound, CallsSound, Disciplined, Sorts, WiresGrow, NoConflict, Lin.Counts,
           Lists, InOrder;
      AlwaysVerified(core, calls[..k]);
      LoadsExactly(SqlAfter(core, calls[..k]).db, order);
    }
    hide IntegrityInOrder, AuthoritySound, CallsSound, Dependable, SqlAfter, InOrder;
    AlwaysReloads(core, calls, InOrder(order));
  }
}
