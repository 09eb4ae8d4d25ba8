/** Execution ownership: exactly which claims are granted, and that a pending attempt can be claimed. */
module Claims {
  import opened Base
  import opened Records
  import opened Commands
  import opened StoreModel
  import opened SqliteStore
  import opened CrashRefinement
  import opened Refinement
  import opened Outbox
  import opened OutboxRuns

  /** On a free connection a claim is granted exactly when the row is committed and ready. The row is then started for
      the executor and nothing else changes; a claim that is not granted changes nothing. */
  lemma ClaimsExactly(st: SqlState, ref: Str, executor: Str)
    requires st.txn.None?
    ensures var (after, claim) := SqlClaim(st, ref, executor);
            var granted := ref in st.db.outbox && st.db.outbox[ref].state == Committed && st.db.outbox[ref].invocation == Ready;
            && (claim == Owned <==> granted) && (claim == NoSuchAttempt <==> ref !in st.db.outbox) && claim != Locked
            && after.txn.None? && after.db == st.db.(outbox := after.db.outbox)
            && (!granted ==> after.db.outbox == st.db.outbox)
            && (granted ==>
                  && after.db.outbox.Keys == st.db.outbox.Keys
                  && after.db.outbox[ref] == st.db.outbox[ref].(invocation := Started, executor := Some(executor))
                  && forall r :: r in st.db.outbox && r != ref ==> after.db.outbox[r] == st.db.outbox[r])
  {
  }

  // Rows before any claim --------------------------------------------------------------------------------------

  /** Nobody owns or has owned the execution. */
  predicate Unowned(row: Row) { row.invocation != Started && row.executor == None }

  lemma UpsertKeepsUnowned(core: Core, t: Tables, loop: Str, r: Str, a: Attempt, ref: Str)
    requires ref in t.outbox ==> Unowned(t.outbox[ref])
    ensures var u := WithAttempt(core, t, loop, r, a).tables; ref in u.outbox ==> Unowned(u.outbox[ref])
  {
    hide KeyTaken;
  }

  lemma {:induction false} AttemptsKeepUnowned(core: Core, t: Tables, s: Snapshot, refs: seq<Str>, ref: Str)
    requires (forall r :: r in refs ==> r in s.attempts) && (ref in t.outbox ==> Unowned(t.outbox[ref]))
    ensures var u := WithAttempts(core, t, s, refs).tables; ref in u.outbox ==> Unowned(u.outbox[ref])
    decreases |refs|
  {
    if refs != [] {
      hide WithAttempt, Unowned;
      UpsertKeepsUnowned(core, t, s.loopRef, refs[0], s.attempts[refs[0]], ref);
      AttemptsKeepUnowned(core, WithAttempt(core, t, s.loopRef, refs[0], s.attempts[refs[0]]).tables, s, refs[1..], ref);
    }
  }

  lemma OutboxKeepsUnowned(core: Core, t: Tables, s: Snapshot, ref: Str)
    requires ref in t.outbox ==> Unowned(t.outbox[ref])
    ensures var u := WithOutbox(core, t, s).tables; ref in u.outbox ==> Unowned(u.outbox[ref])
  {
    AttemptsKeepUnowned(core, t, s, AttemptOrder(core, s), ref);
    hide WithAttempts, Unexpected, Unowned;
  }

  lemma ApplyKeepsUnowned(core: Core, db: Tables, c: Input, fault: Option<Boundary>, ref: Str)
    requires ref in db.outbox ==> Unowned(db.outbox[ref])
    ensures var u := SqlApply(core, SqlState(db, None), c, fault).0.db; ref in u.outbox ==> Unowned(u.outbox[ref])
  {
    DurableOutbox(core, db, c, fault);
    hide SqlApply, Unowned, Synced, Saved, Attempted, WithOutbox;
    var u := SqlApply(core, SqlState(db, None), c, fault).0.db;
    if u.outbox != db.outbox {
      var t := Attempted(core, SnapshotOf(db, c.command.request.loop), c).value;
      SavedOutbox(db, c, t);
      SyncedFrame(core, Saved(db, c, t), c, t.snapshot);
      OutboxKeepsUnowned(core, Saved(db, c, t), t.snapshot, ref);
    }
  }

  /** Whatever a run does, a row whose attempt nobody has been granted is unowned. */
  lemma {:induction false} UnclaimedIsUnowned(core: Core, calls: seq<SqlCall>, ref: Str)
    requires ClaimsOf(core, calls, ref) == 0
    ensures var t := SqlAfter(core, calls).db; ref in t.outbox ==> Unowned(t.outbox[ref])
  {
    if calls != [] {
      var front, last := calls[..|calls| - 1], calls[|calls| - 1];
      UnclaimedIsUnowned(core, front, ref);
      var st := SqlAfter(core, front);
      hide Transact, Unowned;
      match last
      case Apply(c, fault) =>
        if c.command.unencodable.None? && fault != Some(BeforeBegin) && st.txn.None? {
          assert st == SqlState(st.db, None);
          ApplyKeepsUnowned(core, st.db, c, fault, ref);
        }
      case _ =>
    }
  }

  // Liveness ---------------------------------------------------------------------------------------------------

  /** The row of a stored attempt that is still pending. */
  lemma PendingRow(core: Core, t: Tables, loop: Str, ref: Str)
    requires OutboxInv(core, t) && loop in t.loops && ref in t.loops[loop].snapshot.attempts
    requires t.loops[loop].snapshot.attempts[ref].state == Committed
    ensures ref in t.outbox && t.outbox[ref].state == Committed && t.outbox[ref].invocation in {Ready, Started}
  {
    hide OutboxInv, LoopStored;
    LoopOf(core, t, loop);
    AgreementOf(core, t, loop);
  }

  /** In any run, an attempt that a stored snapshot shows as committed and that nobody has been granted is ready in the
      outbox, without an executor. */
  lemma PendingIsReady(core: Core, calls: seq<SqlCall>, loop: Str, ref: Str)
    requires Disciplined(core) && Sorts(core) && WiresGrow(core) && ClaimsOf(core, calls, ref) == 0
    requires var t := SqlAfter(core, calls).db;
             loop in t.loops && ref in t.loops[loop].snapshot.attempts
             && t.loops[loop].snapshot.attempts[ref].state == Committed
    ensures var t := SqlAfter(core, calls).db;
            && ref in t.outbox && t.outbox[ref].state == Committed && t.outbox[ref].invocation == Ready
            && t.outbox[ref].executor == None
  {
    UnclaimedIsUnowned(core, calls, ref);
    hide SqlAfter, ClaimsOf, OutboxInv, Disciplined, Sorts, WiresGrow;
    OutboxAlwaysAgrees(core, calls);
    PendingRow(core, SqlAfter(core, calls).db, loop, ref);
  }

  /** An attempt that a commit adds gets a ready row. */
  lemma NewAttemptIsReady(core: Core, calls: seq<SqlCall>, c: Input, fault: Option<Boundary>, loop: Str, ref: Str)
    requires Disciplined(core) && Sorts(core) && WiresGrow(core) && ref !in SqlAfter(core, calls).db.outbox
    requires var t := SqlAfter(core, calls + [Apply(c, fault)]).db;
             loop in t.loops && ref in t.loops[loop].snapshot.attempts
             && t.loops[loop].snapshot.attempts[ref].state == Committed
    ensures var t := SqlAfter(core, calls + [Apply(c, fault)]).db;
            && ref in t.outbox && t.outbox[ref].state == Committed && t.outbox[ref].invocation == Ready
            && t.outbox[ref].executor == None
  {
    var all := calls + [Apply(c, fault)];
    assert all[..|calls|] == calls;
    ClaimedOnce(core, calls, ref);
    assert ClaimsOf(core, all, ref) == 0 by { hide SqlAfter; }
    hide SqlAfter, ClaimsOf, Disciplined, Sorts, WiresGrow;
    PendingIsReady(core, all, loop, ref);
  }

  lemma {:induction false} ClaimsGrow(core: Core, calls: seq<SqlCall>, k: nat, ref: Str)
    requires k <= |calls|
    ensures ClaimsOf(core, calls[..k], ref) <= ClaimsOf(core, calls, ref)
  {
    if k == |calls| {
      assert calls[..k] == calls;
    } else {
      var front := calls[..|calls| - 1];
      assert front[..k] == calls[..k];
      ClaimsGrow(core, front, k, ref);
    }
  }

  /** The first claim of a pending attempt on a free connection is granted, and from there on it has been granted once,
      whatever follows. */
  lemma FirstClaimIsGranted(core: Core, calls: seq<SqlCall>, loop: Str, ref: Str, executor: Str, more: seq<SqlCall>)
    requires Disciplined(core) && Sorts(core) && WiresGrow(core) && ClaimsOf(core, calls, ref) == 0
    requires var st := SqlAfter(core, calls);
             && st.txn.None? && loop in st.db.loops && ref in st.db.loops[loop].snapshot.attempts
             && st.db.loops[loop].snapshot.attempts[ref].state == Committed
    ensures SqlClaim(SqlAfter(core, calls), ref, executor).1 == Owned
    ensures ClaimsOf(core, calls + [Claim(ref, executor)] + more, ref) == 1
  {
    PendingIsReady(core, calls, loop, ref);
    ClaimsExactly(SqlAfter(core, calls), ref, executor);
    var first := calls + [Claim(ref, executor)];
    var all := first + more;
    assert first[..|calls|] == calls && all[..|first|] == first;
    assert ClaimsOf(core, first, ref) == 1 by { hide SqlAfter, SqlClaim, Disciplined, Sorts, WiresGrow; }
    hide ClaimsOf, SqlAfter, SqlClaim, Disciplined, Sorts, WiresGrow;
    ClaimsGrow(core, all, |first|, ref);
    ClaimedOnce(core, all, ref);
  }
}
