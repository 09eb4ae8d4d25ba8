/** The outbox: claimed once, and in agreement with the snapshots it was synchronised from. */
module Outbox {
  import opened Base
  import opened Records
  import opened Commands
  import opened Kernel
  import opened Transitions
  import opened PlanProgress
  import opened EffectCoupling
  import opened ResultBinding
  import opened ClosureBacking
  import opened Invariant
  import opened StoreModel
  import opened SqliteStore
  import opened CrashRefinement
  import opened Refinement
  import opened Identities

  // Claim once -------------------------------------------------------------------------------------------------

  /** Execution of the attempt has been owned, or ended by an observation. */
  predicate Consumed(outbox: map<Str, Row>, ref: Str) { ref in outbox && outbox[ref].invocation != Ready }

  lemma {:induction false} AttemptsKeepConsumed(core: Core, t: Tables, s: Snapshot, refs: seq<Str>, ref: Str)
    requires forall r :: r in refs ==> r in s.attempts
    requires Consumed(t.outbox, ref)
    ensures Consumed(WithAttempts(core, t, s, refs).tables.outbox, ref)
    decreases |refs|
  {
    if refs != [] {
      var w := WithAttempt(core, t, s.loopRef, refs[0], s.attempts[refs[0]]);
      assert Consumed(w.tables.outbox, ref) by { hide KeyTaken; }
      if w.trouble == NoTrouble {
        hide WithAttempt;
        AttemptsKeepConsumed(core, w.tables, s, refs[1..], ref);
      }
    }
  }

  lemma OutboxKeepsConsumed(core: Core, t: Tables, s: Snapshot, ref: Str)
    requires Consumed(t.outbox, ref)
    ensures Consumed(WithOutbox(core, t, s).tables.outbox, ref)
  {
    AttemptsKeepConsumed(core, t, s, AttemptOrder(core, s), ref);
    hide WithAttempts, Unexpected, Consumed;
  }

  predicate OperationsOnlyChange(db: Tables, u: Tables) { u == db.(operations := u.operations) }

  predicate SyncedCommit(core: Core, db: Tables, c: Input, u: Tables) {
    && Attempted(core, SnapshotOf(db, c.command.request.loop), c).Ok?
    && var t := Attempted(core, SnapshotOf(db, c.command.request.loop), c).value;
       Synced(core, Saved(db, c, t), c, t.snapshot) == Written(u, NoTrouble)
  }

  lemma FailureIsQuiet(db: Tables, c: Input, failure: Failure)
    ensures OperationsOnlyChange(db, Closed(SqlState(db, None), AfterFailure(db, c, failure)).0.db)
  {
  }

  lemma WriteIsDurable(core: Core, db: Tables, c: Input, t: Reduced)
    requires Attempted(core, SnapshotOf(db, c.command.request.loop), c) == Ok(t)
    ensures var u := Closed(SqlState(db, None), WriteAll(core, db, c, t, None)).0.db;
            u == db || SyncedCommit(core, db, c, u)
  {
    hide WriteAll, Attempted, Synced, Saved;
    if WriteAll(core, db, c, t, None).Commit? {
      WriteEnds(core, db, c, t);
      CommittedIsSaved(core, db, c, t, WriteAll(core, db, c, t, None).tables);
    }
  }

  /** Whatever a transaction makes durable, the outbox is the synchronised one or the one before. */
  lemma DurableWhole(core: Core, db: Tables, c: Input)
    ensures var u := SqlApply(core, SqlState(db, None), c, None).0.db;
            OperationsOnlyChange(db, u) || SyncedCommit(core, db, c, u)
  {
    hide WriteAll, Admit, AfterFailure, OperationsOnlyChange, SyncedCommit;
    assert OperationsOnlyChange(db, db) by { QuietIsReflexive(db); }
    var current := SnapshotOf(db, c.command.request.loop);
    if Admit(core, current, c).Stop? {
      FailureIsQuiet(db, c, Admit(core, current, c).failure);
    } else if core.reduce(current, c).Err? {
      FailureIsQuiet(db, c, core.reduce(current, c).failure);
    } else if core.encode(core.reduce(current, c).value.snapshot).Stop? {
      FailureIsQuiet(db, c, core.encode(core.reduce(current, c).value.snapshot).failure);
    } else {
      WriteIsDurable(core, db, c, core.reduce(current, c).value);
    }
  }

  lemma QuietIsReflexive(db: Tables)
    ensures OperationsOnlyChange(db, db)
  {
  }

  lemma DurableOutbox(core: Core, db: Tables, c: Input, fault: Option<Boundary>)
    ensures var u := SqlApply(core, SqlState(db, None), c, fault).0.db;
            OperationsOnlyChange(db, u) || SyncedCommit(core, db, c, u)
  {
    CrashIsAllOrNothing(core, db, c, fault);
    DurableWhole(core, db, c);
    QuietIsReflexive(db);
    hide SqlApply, OperationsOnlyChange, SyncedCommit;
  }

  lemma SavedOutbox(db: Tables, c: Input, t: Reduced)
    ensures var u := Saved(db, c, t);
            u == db.(operations := u.operations, loops := u.loops, events := u.events)
            && u.loops == db.loops[c.command.request.loop := LoopRow(t.snapshot.loopRevision, t.snapshot, t.snapshot)]
  {
    var operated := WithOperation(db, c, Took(ResultOf(c, t)));
    EventsFrame(operated, c, Sequenced(|EventKeys(db, c.command.request.loop)|, t.events));
    hide WithEvents, Sequenced, ResultOf;
  }

  lemma ApplyKeepsConsumed(core: Core, db: Tables, c: Input, fault: Option<Boundary>, ref: Str)
    requires Consumed(db.outbox, ref)
    ensures Consumed(SqlApply(core, SqlState(db, None), c, fault).0.db.outbox, ref)
  {
    DurableOutbox(core, db, c, fault);
    hide SqlApply, Consumed, Synced, Saved, Attempted, WithOutbox;
    var u := SqlApply(core, SqlState(db, None), c, fault).0.db;
    if u.outbox != db.outbox {
      var t := Attempted(core, SnapshotOf(db, c.command.request.loop), c).value;
      SavedOutbox(db, c, t);
      SyncedFrame(core, Saved(db, c, t), c, t.snapshot);
      OutboxKeepsConsumed(core, Saved(db, c, t), t.snapshot, ref);
    }
  }

  lemma CallKeepsConsumed(core: Core, st: SqlState, call: SqlCall, ref: Str)
    requires Consumed(st.db.outbox, ref)
    ensures Consumed(SqlCalled(core, st, call).db.outbox, ref)
  {
    hide Transact;
    match call
    case Apply(c, fault) =>
      if c.command.unencodable.None? && fault != Some(BeforeBegin) && st.txn.None? {
        assert st == SqlState(st.db, None);
        ApplyKeepsConsumed(core, st.db, c, fault, ref);
      }
    case _ =>
  }

  /** How often a run let someone own the execution of an attempt. */
  function ClaimsOf(core: Core, calls: seq<SqlCall>, ref: Str): nat {
    if calls == [] then 0
    else
      var front, last := calls[..|calls| - 1], calls[|calls| - 1];
      ClaimsOf(core, front, ref)
      + if last.Claim? && last.ref == ref && SqlClaim(SqlAfter(core, front), ref, last.executor).1 == Owned then 1 else 0
  }

  /** `claim_attempt` grants an attempt at most once in any run, and a granted attempt is no longer ready. */
  lemma {:induction false} ClaimedOnce(core: Core, calls: seq<SqlCall>, ref: Str)
    ensures ClaimsOf(core, calls, ref) <= 1
    ensures ClaimsOf(core, calls, ref) == 1 ==> Consumed(SqlAfter(core, calls).db.outbox, ref)
  {
    if calls != [] {
      var front, last := calls[..|calls| - 1], calls[|calls| - 1];
      ClaimedOnce(core, front, ref);
      var st := SqlAfter(core, front);
      if ClaimsOf(core, front, ref) == 1 { CallKeepsConsumed(core, st, last, ref); }
      hide SqlApply, SqlPutBlob;
    }
  }

  /** Once an attempt has been observed, from there on no claim of it is granted. */
  lemma {:induction false} ObservedIsNeverClaimed(core: Core, calls: seq<SqlCall>, k: nat, ref: Str)
    requires k <= |calls| && Consumed(SqlAfter(core, calls[..k]).db.outbox, ref)
    ensures Consumed(SqlAfter(core, calls).db.outbox, ref)
    ensures ClaimsOf(core, calls, ref) == ClaimsOf(core, calls[..k], ref)
  {
    if k == |calls| {
      assert calls[..k] == calls;
    } else {
      var front, last := calls[..|calls| - 1], calls[|calls| - 1];
      assert front[..k] == calls[..k];
      ObservedIsNeverClaimed(core, front, k, ref);
      CallKeepsConsumed(core, SqlAfter(core, front), last, ref);
      hide SqlApply, SqlPutBlob;
    }
  }

  // Agreement --------------------------------------------------------------------------------------------------

  /** The loop a derived reference or provider key was derived for. */
  function OwnerOf(name: Str): Option<Str> {
    match name
    case PlanRef(_, at) => Some(at.loop)
    case PlanKey(at) => Some(at.loop)
    case RepairRef(_, id) => Some(id.loop)
    case RepairKey(id) => Some(id.loop)
    case _ => None
  }

  /** Attempts carry names of their loop, provider keys of their own, and a receipt exactly when observed. */
  predicate Sendable(s: Snapshot) {
    && (forall a :: a in s.attempts ==> Sound(s.attempts[a], s.loopRef, a))
    && (forall a, b :: a in s.attempts && b in s.attempts && a != b ==> s.attempts[a].key != s.attempts[b].key)
  }

  predicate Sound(a: Attempt, loop: Str, ref: Str) {
    OwnerOf(ref) == Some(loop) && OwnerOf(a.key) == Some(loop) && (a.state == Committed <==> a.receipt == None)
  }

  lemma ChainOwner(w: Wiring, e: Str)
    requires Belongs(w, e) && ChainOf(e).Some?
    ensures OwnerOf(ChainOf(e).value.attemptRef) == OwnerOf(ChainOf(e).value.providerKey) == Some(w.loop)
  {
  }

  lemma AttemptOfEffect(w: Wiring, a: Str)
    requires CoupledInv(w) && a in w.attempts
    ensures var e := w.attempts[a].effectRef;
            && EffectHolds(w, e) && ChainOf(e).value.attemptRef == a && ChainOf(e).value.providerKey == w.attempts[a].key
            && InStep(w.effects[e], w.attempts[a], e, ChainOf(e).value.providerKey)
  {
    var e := w.attempts[a].effectRef;
    hide HostsPointBack, GoalsHaveEffects, ChainOf, Belongs;
    assert e in w.effects && w.effects[e].attemptRef == a;
    hide AttemptsPointBack;
    assert EffectHolds(w, e);
  }

  lemma AttemptIsSound(w: Wiring, a: Str)
    requires CoupledInv(w) && a in w.attempts
    ensures Sound(w.attempts[a], w.loop, a)
    ensures EffectHolds(w, w.attempts[a].effectRef) && ChainOf(w.attempts[a].effectRef).value.attemptRef == a
            && ChainOf(w.attempts[a].effectRef).value.providerKey == w.attempts[a].key
  {
    AttemptOfEffect(w, a);
    hide CoupledInv, ChainOf, Belongs, OwnerOf;
    ChainOwner(w, w.attempts[a].effectRef);
  }

  lemma CoupledIsSendable(s: Snapshot)
    requires CoupledInv(WiringOf(s))
    ensures Sendable(s)
  {
    var w := WiringOf(s);
    forall a | a in s.attempts ensures Sound(s.attempts[a], s.loopRef, a) { AttemptIsSound(w, a); }
    hide EffectHolds;
    forall a, b | a in s.attempts && b in s.attempts && a != b ensures s.attempts[a].key != s.attempts[b].key {
      AttemptIsSound(w, a);
      AttemptIsSound(w, b);
      if s.attempts[a].effectRef != s.attempts[b].effectRef {
        ChainsAreDisjoint(s.attempts[a].effectRef, s.attempts[b].effectRef);
      }
    }
  }

  /** The row matches the attempt field by field: a pending attempt is READY or STARTED, an observed one carries its own
      state and receipt. */
  predicate RowAgrees(row: Row, loop: Str, a: Attempt) {
    && row.loop == loop && row.subject == a.effectRef && row.target == a.target && row.action == a.action
    && row.key == a.key && row.requestDigest == a.requestDigest && row.revision == a.revision && row.state == a.state
    && row.receipt == a.receipt
    && (if a.state == Committed then row.invocation in {Ready, Started} else row.invocation == Ended(a.state))
  }

  /** A row that synchronising with the attempt makes agree. */
  predicate Mergeable(row: Row, loop: Str, a: Attempt) {
    row.loop == loop && (a.state == Committed ==> row.invocation in {Ready, Started} && row.receipt == None)
  }

  lemma MergeAgrees(row: Row, loop: Str, a: Attempt, payload: string)
    requires Mergeable(row, loop, a) && (a.state == Committed <==> a.receipt == None)
    ensures RowAgrees(MergedRow(row, a, payload), loop, a)
  {
  }

  lemma FreshAgrees(loop: Str, a: Attempt, payload: string)
    ensures RowAgrees(FreshRow(loop, a, payload), loop, a)
  {
  }

  /** All rows of a snapshot's attempts agree with them. */
  predicate OutboxAgrees(core: Core, t: Tables, s: Snapshot) {
    forall ref :: ref in s.attempts ==> ref in t.outbox && RowAgrees(t.outbox[ref], s.loopRef, s.attempts[ref])
                                        && core.wire(t.blobs, s.attempts[ref]) == Materialised(t.outbox[ref].payload)
  }

  lemma {:induction false} AttemptsAgree(core: Core, t: Tables, s: Snapshot, refs: seq<Str>)
    requires forall ref :: ref in refs ==> ref in s.attempts && Sound(s.attempts[ref], s.loopRef, ref)
    requires forall ref :: ref in refs && ref in t.outbox ==> Mergeable(t.outbox[ref], s.loopRef, s.attempts[ref])
    requires WithAttempts(core, t, s, refs).trouble == NoTrouble
    ensures var u := WithAttempts(core, t, s, refs).tables;
            && u == t.(outbox := u.outbox)
            && (forall ref :: ref in refs ==>
                  && ref in u.outbox && RowAgrees(u.outbox[ref], s.loopRef, s.attempts[ref])
                  && core.wire(t.blobs, s.attempts[ref]) == Materialised(u.outbox[ref].payload))
            && (forall ref :: ref !in refs ==> (ref in u.outbox <==> ref in t.outbox))
            && (forall ref :: ref !in refs && ref in t.outbox ==> u.outbox[ref] == t.outbox[ref])
    decreases |refs|
  {
    if refs != [] {
      var ref := refs[0];
      AttemptAgrees(core, t, s, ref);
      var w := WithAttempt(core, t, s.loopRef, ref, s.attempts[ref]);
      hide WithAttempt;
      AgreesIsMergeable(w.tables.outbox[ref], s.loopRef, s.attempts[ref]);
      hide RowAgrees, Mergeable;
      AttemptsAgree(core, w.tables, s, refs[1..]);
    }
  }

  lemma AttemptAgrees(core: Core, t: Tables, s: Snapshot, ref: Str)
    requires ref in s.attempts && Sound(s.attempts[ref], s.loopRef, ref)
    requires ref in t.outbox ==> Mergeable(t.outbox[ref], s.loopRef, s.attempts[ref])
    requires WithAttempt(core, t, s.loopRef, ref, s.attempts[ref]).trouble == NoTrouble
    ensures var u := WithAttempt(core, t, s.loopRef, ref, s.attempts[ref]).tables;
            && ref in u.outbox && u == t.(outbox := t.outbox[ref := u.outbox[ref]])
            && RowAgrees(u.outbox[ref], s.loopRef, s.attempts[ref])
            && core.wire(t.blobs, s.attempts[ref]) == Materialised(u.outbox[ref].payload)
  {
    var payload := core.wire(t.blobs, s.attempts[ref]).payload;
    hide KeyTaken;
    if ref in t.outbox {
      MergeAgrees(t.outbox[ref], s.loopRef, s.attempts[ref], payload);
    } else {
      FreshAgrees(s.loopRef, s.attempts[ref], payload);
    }
    hide RowAgrees, Mergeable;
  }

  lemma AgreesIsMergeable(row: Row, loop: Str, a: Attempt)
    requires RowAgrees(row, loop, a) && (a.state == Committed <==> a.receipt == None)
    ensures Mergeable(row, loop, a)
  {
  }

  // What the reducer guarantees --------------------------------------------------------------------------------

  /** Attempts persist, keep their identity, and are only observed. */
  predicate AttemptsContinue(s: Snapshot, t: Snapshot) {
    s.attempts.Keys <= t.attempts.Keys && forall a :: a in s.attempts ==> AttemptMoves(s.attempts[a], t.attempts[a])
  }

  predicate KnowsGoal(s: Snapshot, digest: Str) { exists g :: g in s.goals && s.goals[g].objectiveDigest == digest }

  /** An accepted command as the outbox and the integrity check rely on it. */
  ghost predicate Continues(s: Option<Snapshot>, c: Input, t: Snapshot) {
    && Inv(t) && t.loopRef == c.command.request.loop
    && (s.Some? ==> AttemptsContinue(s.value, t) && forall d :: KnowsGoal(s.value, d) ==> KnowsGoal(t, d))
    && (s.None? <==> c.command.request.payload.Create?)
    && (c.command.request.payload.Create? ==>
          KnowsGoal(t, Digest(ObjectiveText(c.command.request.payload.startup.objective))))
    && c.command.request.actor in ActorsOf(c.context, c.command.request.loop)
    && c.command.request.grant in GrantsOf(c.context, c.command.request.loop)
  }

  ghost predicate Disciplined(core: Core) {
    forall s: Option<Snapshot>, c: Input {:trigger Attempted(core, s, c)} ::
      (s.Some? ==> Inv(s.value) && s.value.loopRef == c.command.request.loop) && Attempted(core, s, c).Ok? ==>
        Continues(s, c, Attempted(core, s, c).value.snapshot)
  }

  /** More blobs never change what an attempt materialises to. */
  ghost predicate Extends(b: Blobs, b': Blobs) { forall d :: d in b ==> d in b' && b'[d] == b[d] }

  ghost predicate WiresGrow(core: Core) {
    forall b, b', a :: Extends(b, b') && core.wire(b, a).Materialised? ==> core.wire(b', a) == core.wire(b, a)
  }

  // The invariant of the durable tables ------------------------------------------------------------------------

  predicate RowOwned(t: Tables, ref: Str)
    requires ref in t.outbox
  {
    t.outbox[ref].loop in t.loops && ref in t.loops[t.outbox[ref].loop].snapshot.attempts
  }

  predicate LoopStored(core: Core, t: Tables, loop: Str)
    requires loop in t.loops
  {
    var s := t.loops[loop].snapshot;
    && s.loopRef == loop && Inv(s) && core.encode(s).Pass? && OutboxAgrees(core, t, s) && Described(t, loop, s)
  }

  /** The loop's descriptor names the objective of one of its goals. */
  predicate Described(t: Tables, loop: Str, s: Snapshot) {
    loop in t.descriptors && KnowsGoal(s, Digest(ObjectiveText(t.descriptors[loop].goal)))
  }

  predicate ActorsIn(actors: map<Str, Actor>, loops: set<Str>) { forall a :: a in actors ==> actors[a].namespace in loops }

  predicate GrantsIn(grants: map<Str, Grant>, loops: set<Str>) { forall g :: g in grants ==> grants[g].loop in loops }

  predicate ReceiptsIn(receipts: map<Str, Receipt>, loops: set<Str>) {
    forall r :: r in receipts ==> receipts[r].loop in loops
  }

  predicate RootsIn(roots: map<(Str, Issuer), Str>, loops: set<Str>) { forall k :: k in roots ==> k.0 in loops }

  /** Identities are stored for loops that exist. */
  predicate IdentityStored(t: Tables) {
    && t.descriptors.Keys <= t.loops.Keys
    && ActorsIn(t.actors, t.loops.Keys) && GrantsIn(t.grants, t.loops.Keys)
    && ReceiptsIn(t.receipts, t.loops.Keys) && RootsIn(t.roots, t.loops.Keys)
  }

  predicate OutboxInv(core: Core, t: Tables) {
    && (forall loop :: loop in t.loops ==> LoopStored(core, t, loop))
    && (forall ref :: ref in t.outbox ==> RowOwned(t, ref))
    && IdentityStored(t)
  }

  lemma StoredIsSendable(core: Core, t: Tables, loop: Str)
    requires loop in t.loops && LoopStored(core, t, loop)
    ensures Sendable(t.loops[loop].snapshot) && t.loops[loop].snapshot.loopRef == loop
  {
    hide SnapshotPlanInv, CoupledInv, BoundInv, EndingInv, PolicyInv, OutboxAgrees, KnowsGoal, Sendable;
    CoupledIsSendable(t.loops[loop].snapshot);
  }

  /** A stored row, the snapshot it belongs to, and what it says there. */
  lemma RowFacts(core: Core, t: Tables, ref: Str)
    requires OutboxInv(core, t) && ref in t.outbox
    ensures var loop := t.outbox[ref].loop;
            && loop in t.loops && ref in t.loops[loop].snapshot.attempts
            && RowAgrees(t.outbox[ref], loop, t.loops[loop].snapshot.attempts[ref])
            && Sound(t.loops[loop].snapshot.attempts[ref], loop, ref)
            && OwnerOf(ref) == OwnerOf(t.outbox[ref].key) == Some(loop)
  {
    assert RowOwned(t, ref);
    var loop := t.outbox[ref].loop;
    assert LoopStored(core, t, loop);
    StoredIsSendable(core, t, loop);
    hide Inv, KnowsGoal, IdentityStored, OwnerOf;
  }

  lemma MovedIsMergeable(row: Row, loop: Str, a: Attempt, b: Attempt)
    requires RowAgrees(row, loop, a) && AttemptMoves(a, b) && (a.state == Committed <==> a.receipt == None)
    ensures Mergeable(row, loop, b) && row.key == b.key
  {
  }

  /** A row about an attempt of the next snapshot belongs to the same loop and can be merged. */
  lemma RowIsMergeable(core: Core, t: Tables, loop: Str, u: Snapshot, ref: Str)
    requires OutboxInv(core, t) && ref in t.outbox && ref in u.attempts && Sendable(u) && u.loopRef == loop
    requires loop in t.loops ==> AttemptsContinue(t.loops[loop].snapshot, u)
    ensures Mergeable(t.outbox[ref], loop, u.attempts[ref]) && loop in t.loops
    ensures ref in t.loops[loop].snapshot.attempts && t.outbox[ref].key == u.attempts[ref].key
  {
    hide OutboxInv, OwnerOf, RowAgrees, Mergeable, AttemptMoves;
    RowFacts(core, t, ref);
    assert Sound(u.attempts[ref], loop, ref);
    assert t.outbox[ref].loop == loop;
    MovedIsMergeable(t.outbox[ref], loop, t.loops[loop].snapshot.attempts[ref], u.attempts[ref]);
  }

  lemma OrderCovers(core: Core, s: Snapshot)
    requires Sorts(core)
    ensures forall ref :: ref in AttemptOrder(core, s) <==> ref in s.attempts
  {
  }

  /** The outbox a commit leaves: the snapshot's rows agree, all other rows are untouched. */
  lemma SyncedOutbox(core: Core, db: Tables, c: Input, t: Reduced)
    requires OutboxInv(core, db) && Sorts(core) && Sendable(t.snapshot) && t.snapshot.loopRef == c.command.request.loop
    requires c.command.request.loop in db.loops ==> AttemptsContinue(db.loops[c.command.request.loop].snapshot, t.snapshot)
    requires Synced(core, Saved(db, c, t), c, t.snapshot).trouble == NoTrouble
    ensures var u := Synced(core, Saved(db, c, t), c, t.snapshot).tables;
            && u.blobs == db.blobs
            && u.loops == db.loops[c.command.request.loop := LoopRow(t.snapshot.loopRevision, t.snapshot, t.snapshot)]
            && OutboxAgrees(core, u, t.snapshot)
            && (forall ref :: ref !in t.snapshot.attempts ==> (ref in u.outbox <==> ref in db.outbox))
            && (forall ref :: ref !in t.snapshot.attempts && ref in db.outbox ==> u.outbox[ref] == db.outbox[ref])
  {
    var saved, s := Saved(db, c, t), t.snapshot;
    hide OutboxInv, Mergeable, RowAgrees, Sound, AttemptsContinue, Saved, Synced, WithIdentity, WithAllReceipts;
    SavedOutbox(db, c, t);
    SyncedFrame(core, saved, c, s);
    OrderCovers(core, s);
    forall ref | ref in s.attempts && ref in saved.outbox ensures Mergeable(saved.outbox[ref], s.loopRef, s.attempts[ref]) {
      RowIsMergeable(core, db, c.command.request.loop, s, ref);
    }
    hide SameRecord;
    AttemptsAgree(core, saved, s, AttemptOrder(core, s));
    hide WithAttempts, AttemptOrder;
  }

  // One commit -------------------------------------------------------------------------------------------------

  /** What an accepted command does to its loop, and where its snapshot came from. */
  lemma AttemptContinues(core: Core, db: Tables, c: Input)
    requires OutboxInv(core, db) && Disciplined(core) && Attempted(core, SnapshotOf(db, c.command.request.loop), c).Ok?
    ensures var s := SnapshotOf(db, c.command.request.loop); var t := Attempted(core, s, c).value.snapshot;
            Continues(s, c, t) && core.encode(t).Pass?
  {
    hide Inv, OutboxAgrees, Continues, IdentityStored, Described, Admit, RowOwned;
    var loop := c.command.request.loop;
    if loop in db.loops { assert LoopStored(core, db, loop); }
  }

  lemma ContinuesIsSendable(s: Option<Snapshot>, c: Input, t: Snapshot)
    requires Continues(s, c, t)
    ensures Sendable(t) && t.loopRef == c.command.request.loop && (s.Some? ==> AttemptsContinue(s.value, t))
  {
    hide SnapshotPlanInv, CoupledInv, BoundInv, EndingInv, PolicyInv, KnowsGoal, Sendable, AttemptsContinue;
    CoupledIsSendable(t);
  }

  lemma AgreesElsewhere(core: Core, db: Tables, u: Tables, s: Snapshot, other: Snapshot)
    requires OutboxAgrees(core, db, other) && Sendable(other) && Sendable(s) && other.loopRef != s.loopRef
    requires u.blobs == db.blobs
    requires forall ref :: ref !in s.attempts && ref in db.outbox ==> ref in u.outbox && u.outbox[ref] == db.outbox[ref]
    ensures OutboxAgrees(core, u, other)
  {
    forall ref | ref in other.attempts ensures ref !in s.attempts {
      SenderOwns(other, ref);
      if ref in s.attempts { SenderOwns(s, ref); }
    }
    hide RowAgrees, OwnerOf;
  }

  lemma SenderOwns(s: Snapshot, ref: Str)
    requires Sendable(s) && ref in s.attempts
    ensures OwnerOf(ref) == Some(s.loopRef)
  {
    hide OwnerOf;
    assert Sound(s.attempts[ref], s.loopRef, ref);
  }

  /** Loops other than the committed one keep their snapshots, and their rows are none of the snapshot's. */
  lemma OtherLoopStored(core: Core, db: Tables, u: Tables, s: Snapshot, loop: Str)
    requires loop in db.loops && LoopStored(core, db, loop) && loop != s.loopRef && Sendable(s)
    requires u.blobs == db.blobs && loop in u.loops && u.loops[loop] == db.loops[loop]
    requires forall ref :: ref !in s.attempts && ref in db.outbox ==> ref in u.outbox && u.outbox[ref] == db.outbox[ref]
    requires loop in u.descriptors && u.descriptors[loop] == db.descriptors[loop]
    ensures LoopStored(core, u, loop)
  {
    StoredIsSendable(core, db, loop);
    hide Inv, KnowsGoal, OutboxAgrees, Sendable;
    AgreesElsewhere(core, db, u, s, db.loops[loop].snapshot);
  }

  lemma RowsStayOwned(core: Core, db: Tables, u: Tables, s: Snapshot)
    requires OutboxInv(core, db) && Sendable(s)
    requires s.loopRef in db.loops ==> AttemptsContinue(db.loops[s.loopRef].snapshot, s)
    requires u.loops.Keys == db.loops.Keys + {s.loopRef} && u.loops[s.loopRef].snapshot == s
    requires forall loop :: loop in db.loops && loop != s.loopRef ==> u.loops[loop] == db.loops[loop]
    requires OutboxAgrees(core, u, s)
    requires forall ref :: ref !in s.attempts && ref in u.outbox ==> ref in db.outbox && u.outbox[ref] == db.outbox[ref]
    ensures forall ref :: ref in u.outbox ==> RowOwned(u, ref)
  {
    forall ref | ref in u.outbox ensures RowOwned(u, ref) {
      if ref in s.attempts {
        assert RowAgrees(u.outbox[ref], s.loopRef, s.attempts[ref]);
      } else {
        RowFacts(core, db, ref);
        hide OutboxInv, RowAgrees, OwnerOf;
        assert AttemptsContinue(db.loops[db.outbox[ref].loop].snapshot, s) || db.outbox[ref].loop != s.loopRef;
      }
    }
  }

  /** The identities a commit registers: those of a new loop. */
  predicate Registered(t: Tables, u: Tables, c: Input) {
    var r, loop := c.command.request, c.command.request.loop;
    if r.payload.Create? then
      && u.descriptors == t.descriptors[loop := Descriptor(r.payload.startup.objective, r.issuedAt)]
      && u.actors == t.actors + ActorsOf(c.context, loop) && u.grants == t.grants + GrantsOf(c.context, loop)
      && u.roots == t.roots + RootsOf(c.context, loop)
    else u.descriptors == t.descriptors && u.actors == t.actors && u.grants == t.grants && u.roots == t.roots
  }

  lemma IdentitySynced(core: Core, t: Tables, c: Input)
    requires Sorts(core) && WithIdentity(core, t, c).trouble == NoTrouble
    ensures var u := WithIdentity(core, t, c).tables;
            Registered(t, u, c) && u.receipts == t.receipts && u.outbox == t.outbox
    ensures c.command.request.payload.Create? ==> !IdentityTaken(t, c.context, c.command.request.loop)
  {
    hide ActorsOf, GrantsOf, RootsOf, WithRegistry, WithDescriptor, IdentityTaken, Sorts;
    IdentityFrame(core, t, c);
    if c.command.request.payload.Create? {
      var r, loop := c.command.request, c.command.request.loop;
      var d := WithDescriptor(t, loop, r.payload.startup.objective, r.issuedAt);
      DescriptorRow(t, loop, r.payload.startup.objective, r.issuedAt);
      RegistryFrame(core, d, c.context, loop);
      RegistryAdds(core, d, c.context, loop);
      TakenIsLocal(d, t, c.context, loop);
    }
  }

  lemma DescriptorRow(t: Tables, loop: Str, goal: string, createdAt: int)
    ensures WithDescriptor(t, loop, goal, createdAt)
            == t.(descriptors := t.descriptors[loop := Descriptor(goal, createdAt)])
  {
  }

  lemma TakenIsLocal(t: Tables, u: Tables, ctx: Context, loop: Str)
    requires u.actors == t.actors && u.grants == t.grants && u.roots == t.roots
    ensures IdentityTaken(t, ctx, loop) == IdentityTaken(u, ctx, loop)
  {
    hide ActorsOf, GrantsOf, RootsOf;
  }

  lemma SyncedIdentity(core: Core, t: Tables, c: Input, s: Snapshot)
    requires Sorts(core) && Synced(core, t, c, s).trouble == NoTrouble
    ensures Registered(t, Synced(core, t, c, s).tables, c) && ReceiptsFrom(t, Synced(core, t, c, s).tables, c)
  {
    var o := WithOutbox(core, t, s).tables;
    hide WithIdentity, WithAllReceipts, WithOutbox, Registered, ReceiptsFrom;
    OutboxOnlyChanges(core, t, s);
    IdentitySynced(core, o, c);
    var i := WithIdentity(core, o, c).tables;
    AllReceiptsFrame(core, i, c);
    RegistrationCarries(t, o, i, WithAllReceipts(core, i, c).tables, c);
  }

  lemma RegistrationCarries(t: Tables, o: Tables, i: Tables, u: Tables, c: Input)
    requires o == t.(outbox := o.outbox) && Registered(o, i, c) && i.receipts == o.receipts
    requires u == i.(receipts := u.receipts) && ReceiptsFrom(i, u, c)
    ensures Registered(t, u, c) && ReceiptsFrom(t, u, c)
  {
    hide ActorsOf, GrantsOf, RootsOf, Knows;
  }

  lemma OutboxOnlyChanges(core: Core, t: Tables, s: Snapshot)
    ensures WithOutbox(core, t, s).tables == t.(outbox := WithOutbox(core, t, s).tables.outbox)
  {
    AttemptsFrame(core, t, s, AttemptOrder(core, s));
    hide WithAttempts, Unexpected;
  }

  lemma RegistryIn(t: Tables, ctx: Context, loop: Str, loops: set<Str>)
    requires ActorsIn(t.actors, loops) && GrantsIn(t.grants, loops) && RootsIn(t.roots, loops)
    ensures ActorsIn(t.actors + ActorsOf(ctx, loop), loops + {loop})
    ensures GrantsIn(t.grants + GrantsOf(ctx, loop), loops + {loop})
    ensures RootsIn(t.roots + RootsOf(ctx, loop), loops + {loop})
  {
  }

  lemma ReceiptsStayIn(t: Tables, u: Tables, c: Input, loops: set<Str>)
    requires ReceiptsIn(t.receipts, loops) && ReceiptsFrom(t, u, c)
    ensures ReceiptsIn(u.receipts, loops + {c.command.request.loop})
  {
  }

  lemma IdentityStays(t: Tables, u: Tables, c: Input)
    requires IdentityStored(t) && u.loops.Keys == t.loops.Keys + {c.command.request.loop}
    requires Registered(t, u, c) && ReceiptsFrom(t, u, c)
    ensures IdentityStored(u)
  {
    RegistryIn(t, c.context, c.command.request.loop, t.loops.Keys);
    ReceiptsStayIn(t, u, c, t.loops.Keys);
    RegistryGrows(t, t.loops.Keys, c.command.request.loop);
    hide ActorsOf, GrantsOf, RootsOf, ActorsIn, GrantsIn, ReceiptsIn, RootsIn, ReceiptsFrom;
  }

  lemma RegistryGrows(t: Tables, loops: set<Str>, loop: Str)
    requires ActorsIn(t.actors, loops) && GrantsIn(t.grants, loops) && RootsIn(t.roots, loops)
    ensures ActorsIn(t.actors, loops + {loop}) && GrantsIn(t.grants, loops + {loop}) && RootsIn(t.roots, loops + {loop})
  {
  }

  lemma DescriptionStays(db: Tables, u: Tables, c: Input, s: Snapshot)
    requires Continues(SnapshotOf(db, c.command.request.loop), c, s) && Registered(db, u, c)
    requires var loop := c.command.request.loop; loop in db.loops ==> Described(db, loop, db.loops[loop].snapshot)
    ensures Described(u, c.command.request.loop, s)
  {
    hide Inv, AttemptsContinue, KnowsGoal, ActorsOf, GrantsOf;
  }

  lemma CommittedLoopStored(core: Core, db: Tables, u: Tables, c: Input, s: Snapshot)
    requires c.command.request.loop in db.loops ==> LoopStored(core, db, c.command.request.loop)
    requires Continues(SnapshotOf(db, c.command.request.loop), c, s) && core.encode(s).Pass?
    requires c.command.request.loop in u.loops && u.loops[c.command.request.loop].snapshot == s && OutboxAgrees(core, u, s)
    requires Registered(db, u, c)
    ensures LoopStored(core, u, c.command.request.loop)
  {
    hide Inv, OutboxAgrees, AttemptsContinue, KnowsGoal, Described, Registered;
    DescriptionStays(db, u, c, s);
  }

  /** The tables around a commit, apart from the outbox agreement they lead to. */
  lemma CommitFrame(core: Core, db: Tables, c: Input, t: Reduced, u: Tables)
    requires Sorts(core) && Synced(core, Saved(db, c, t), c, t.snapshot) == Written(u, NoTrouble)
    ensures u.loops == db.loops[c.command.request.loop := LoopRow(t.snapshot.loopRevision, t.snapshot, t.snapshot)]
    ensures u.blobs == db.blobs && Registered(db, u, c) && ReceiptsFrom(db, u, c)
  {
    hide Synced, Saved, Registered, ReceiptsFrom;
    SavedOutbox(db, c, t);
    SyncedFrame(core, Saved(db, c, t), c, t.snapshot);
    SyncedIdentity(core, Saved(db, c, t), c, t.snapshot);
    SameRegistration(Saved(db, c, t), db, u, c);
  }

  lemma SameRegistration(t: Tables, db: Tables, u: Tables, c: Input)
    requires t == db.(operations := t.operations, loops := t.loops, events := t.events)
    requires Registered(t, u, c) && ReceiptsFrom(t, u, c)
    ensures Registered(db, u, c) && ReceiptsFrom(db, u, c)
  {
    hide ActorsOf, GrantsOf;
  }

  lemma OtherDescriptors(db: Tables, u: Tables, c: Input, loop: Str)
    requires Registered(db, u, c) && loop != c.command.request.loop && loop in db.descriptors
    ensures loop in u.descriptors && u.descriptors[loop] == db.descriptors[loop]
  {
    hide ActorsOf, GrantsOf;
  }

  lemma AllLoopsStored(core: Core, db: Tables, u: Tables, c: Input, s: Snapshot)
    requires OutboxInv(core, db) && Sendable(s) && s.loopRef == c.command.request.loop
    requires c.command.request.loop in u.loops && LoopStored(core, u, c.command.request.loop)
    requires u.loops == db.loops[c.command.request.loop := u.loops[c.command.request.loop]]
    requires u.blobs == db.blobs && Registered(db, u, c)
    requires forall ref :: ref !in s.attempts && ref in db.outbox ==> ref in u.outbox && u.outbox[ref] == db.outbox[ref]
    ensures forall loop :: loop in u.loops ==> LoopStored(core, u, loop)
  {
    hide Registered, Sendable, RowOwned, IdentityStored;
    forall loop | loop in u.loops ensures LoopStored(core, u, loop) {
      if loop != c.command.request.loop {
        LoopHasDescriptor(core, db, loop);
        OtherDescriptors(db, u, c, loop);
        hide LoopStored;
        OtherLoopStored(core, db, u, s, loop);
      }
    }
  }

  /** What the committed snapshot is, and what else the commit left alone. */
  lemma CommitStory(core: Core, db: Tables, c: Input, u: Tables) returns (t: Reduced)
    requires OutboxInv(core, db) && Disciplined(core) && Sorts(core) && SyncedCommit(core, db, c, u)
    ensures Continues(SnapshotOf(db, c.command.request.loop), c, t.snapshot) && core.encode(t.snapshot).Pass?
    ensures Sendable(t.snapshot) && t.snapshot.loopRef == c.command.request.loop
    ensures c.command.request.loop in db.loops ==> AttemptsContinue(db.loops[c.command.request.loop].snapshot, t.snapshot)
    ensures Synced(core, Saved(db, c, t), c, t.snapshot) == Written(u, NoTrouble)
  {
    var s := SnapshotOf(db, c.command.request.loop);
    t := Attempted(core, s, c).value;
    AttemptContinues(core, db, c);
    hide Attempted, Synced, Saved, Sendable, AttemptsContinue, Continues, OutboxInv, Disciplined;
    ContinuesIsSendable(s, c, t.snapshot);
  }

  lemma CommitKeepsOutbox(core: Core, db: Tables, c: Input, u: Tables)
    requires OutboxInv(core, db) && Disciplined(core) && Sorts(core) && SyncedCommit(core, db, c, u)
    ensures OutboxInv(core, u)
  {
    hide Disciplined, Sorts, SyncedCommit, Synced, Saved, Sendable, AttemptsContinue, OutboxAgrees, LoopStored, RowOwned,
         IdentityStored, Registered, ReceiptsFrom, Continues;
    var t := CommitStory(core, db, c, u);
    SyncedOutbox(core, db, c, t);
    CommitFrame(core, db, c, t, u);
    CommittedLoopStored(core, db, u, c, t.snapshot);
    IdentityStays(db, u, c);
    AllLoopsStored(core, db, u, c, t.snapshot);
    RowsStayOwned(core, db, u, t.snapshot);
  }

  lemma LoopHasDescriptor(core: Core, t: Tables, loop: Str)
    requires OutboxInv(core, t) && loop in t.loops
    ensures loop in t.descriptors
  {
    assert LoopStored(core, t, loop);
    hide Inv, OutboxAgrees, KnowsGoal, IdentityStored, RowOwned;
  }
}
