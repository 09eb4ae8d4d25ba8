/** What `SQLiteStore.apply` leaves behind when the derived tables of a decided command cannot be synchronised: nothing
    durable, and a transaction that keeps its connection unusable until the store is opened again. */
module OpenTransactions {
  import opened Base
  import opened Records
  import opened Commands
  import opened StoreModel
  import opened SqliteStore
  import opened CrashRefinement
  import opened Refinement
  import opened Outbox
  import opened OutboxRuns

  // How synchronisation fails ----------------------------------------------------------------------------------

  /** The only unique keys a decided command can violate are those of the actors and grants of the loop it creates, and it
      does when a stored one comes before any that has no encoding. */
  lemma SyncClashesExactly(core: Core, db: Tables, c: Input, t: Reduced)
    requires OutboxInv(core, db) && Sorts(core) && Continues(SnapshotOf(db, c.command.request.loop), c, t.snapshot)
    ensures Synced(core, Saved(db, c, t), c, t.snapshot).trouble == DatabaseError
            <==> Materialises(core, db.blobs, t.snapshot) && IdentityTrouble(core, db, c) == DatabaseError
  {
    hide OutboxInv, Sorts, Continues, Synced, Saved, Materialises, PayloadsTrouble, IdentityTrouble, ReceiptsTrouble,
         ReceiptsNamed, AttemptOrder;
    SyncsExactly(core, db, c, t);
    MaterialisesExactly(core, db.blobs, t.snapshot);
    PayloadsTroubleIsNone(core, db.blobs, t.snapshot, AttemptOrder(core, t.snapshot));
    ReceiptsTroubleIsNone(db, c, core.sorted(ReceiptsNamed(c.command.request)));
  }

  lemma SyncStoresReceipts(core: Core, t: Tables, c: Input, s: Snapshot)
    requires Sorts(core)
    ensures Synced(core, t, c, s).trouble == NoTrouble ==>
              forall ref :: ref in ReceiptsNamed(c.command.request) ==> ReceiptStored(Synced(core, t, c, s).tables, c, ref)
  {
    hide WithOutbox, WithIdentity, WithReceipts, ReceiptsNamed, ReceiptStored;
    if Synced(core, t, c, s).trouble == NoTrouble {
      var i := WithIdentity(core, WithOutbox(core, t, s).tables, c).tables;
      ReceiptsStore(i, c, core.sorted(ReceiptsNamed(c.command.request)));
    }
  }

  // The connection ---------------------------------------------------------------------------------------------

  lemma EventsAreWritten(db: Tables, c: Input, t: Reduced)
    requires Ordered(db)
    ensures WithEvents(WithOperation(db, c, Took(ResultOf(c, t))), c,
                       Sequenced(|EventKeys(db, c.command.request.loop)|, t.events)).trouble == NoTrouble
  {
    var operated := WithOperation(db, c, Took(ResultOf(c, t)));
    var loop := c.command.request.loop;
    assert LogIs(db, loop, LogOf(db, loop));
    assert LogIs(operated, loop, LogOf(db, loop));
    hide Ordered, LogOf, WithEvents, ResultOf, Sequenced, LogIs, OtherLogsKept;
    LogSize(db, loop);
    EventsAppend(operated, c, LogOf(db, loop), t.events, |EventKeys(db, loop)|);
  }

  /** An undisturbed write of a decided command ends as its synchronisation does. */
  lemma WriteEndsAsSynced(core: Core, db: Tables, c: Input, t: Reduced)
    requires Ordered(db)
    ensures var w := Synced(core, Saved(db, c, t), c, t.snapshot);
            WriteAll(core, db, c, t, None)
            == if w.trouble != NoTrouble then AfterTrouble(w) else Closing.Commit(w.tables, Accepted(ResultOf(c, t)))
  {
    hide Ordered, WithEvents, Synced, Sequenced, ResultOf, WithSnapshot, WithOperation, AfterTrouble;
    EventsAreWritten(db, c, t);
    var operated := WithOperation(db, c, Took(ResultOf(c, t)));
    var logged := WithEvents(operated, c, Sequenced(|EventKeys(db, c.command.request.loop)|, t.events));
    assert Saved(db, c, t) == WithSnapshot(logged.tables, c.command.request.loop, t.snapshot);
  }

  lemma DecidedIsWritten(core: Core, db: Tables, c: Input)
    requires c.command.unencodable.None? && Key(c) !in db.operations
    requires Attempted(core, SnapshotOf(db, c.command.request.loop), c).Ok?
    ensures var t := Attempted(core, SnapshotOf(db, c.command.request.loop), c).value;
            SqlApply(core, SqlState(db, None), c, None) == Closed(SqlState(db, None), WriteAll(core, db, c, t, None))
  {
    hide Admit, WriteAll, Closed;
  }

  /** Whatever trouble ends synchronisation, the operation row is already in the working tables. */
  lemma OperationIsWritten(core: Core, db: Tables, c: Input, t: Reduced)
    requires Ordered(db)
    ensures Key(c) in Synced(core, Saved(db, c, t), c, t.snapshot).tables.operations
  {
    hide Ordered, Synced, Saved, LogIs, OtherLogsKept;
    SavedTables(db, c, t);
    SyncedFrame(core, Saved(db, c, t), c, t.snapshot);
  }

  /** What becomes of a new command that the reducer accepts: without trouble it is committed and its receipts are stored.
      With trouble nothing of it is durable; a violated key is rolled back, while corruption leaves the transaction open,
      and so does a record without encoding, whose rejection collides with the operation row. */
  lemma CorruptionStaysOpen(core: Core, db: Tables, c: Input)
    requires OutboxInv(core, db) && Ordered(db) && Disciplined(core) && Sorts(core)
    requires c.command.unencodable.None? && Key(c) !in db.operations
    requires Attempted(core, SnapshotOf(db, c.command.request.loop), c).Ok?
    ensures var t := Attempted(core, SnapshotOf(db, c.command.request.loop), c).value;
            var (st, answer) := SqlApply(core, SqlState(db, None), c, None);
            match SyncTrouble(core, db, c, t.snapshot)
            case NoTrouble =>
              && answer == Accepted(ResultOf(c, t)) && st.txn.None?
              && SnapshotOf(st.db, c.command.request.loop) == Some(t.snapshot)
              && st.db.operations.Keys == db.operations.Keys + {Key(c)}
              && (forall ref :: ref in ReceiptsNamed(c.command.request) ==> ReceiptStored(st.db, c, ref))
            case Corruption => answer == Corrupt && st.db == db && st.txn.Some?
            case DatabaseError => answer == Corrupt && st == SqlState(db, None)
            case Refusal => answer == Escaped && st.db == db && st.txn.Some? && Key(c) in st.txn.value.operations
    ensures var t := Attempted(core, SnapshotOf(db, c.command.request.loop), c).value;
            SyncTrouble(core, db, c, t.snapshot) == NoTrouble
            <==> Materialises(core, db.blobs, t.snapshot) && IdentityFits(db, c) && ReceiptsFit(db, c)
  {
    hide Attempted, OutboxInv, Ordered, Disciplined, Sorts, Materialises, IdentityFits, ReceiptsFit, Synced, Saved,
         WriteAll, Continues, SqlApply, ResultOf, SyncTrouble, ReceiptsNamed, ReceiptStored;
    var t := Attempted(core, SnapshotOf(db, c.command.request.loop), c).value;
    DecidedIsWritten(core, db, c);
    WriteEndsAsSynced(core, db, c, t);
    SyncFailsExactly(core, db, c);
    AttemptContinues(core, db, c);
    SyncStoresReceipts(core, Saved(db, c, t), c, t.snapshot);
    SavedTables(db, c, t);
    SyncedFrame(core, Saved(db, c, t), c, t.snapshot);
    OperationIsWritten(core, db, c, t);
    hide LogIs, OtherLogsKept;
  }

  /** The calls after an open transaction, up to the next reopening. */
  function SqlFrom(core: Core, st: SqlState, calls: seq<SqlCall>): SqlState
    decreases |calls|
  {
    if calls == [] then st else SqlFrom(core, SqlCalled(core, st, calls[0]), calls[1..])
  }

  /** On a connection with an open transaction nothing is accepted, claimed or stored, whatever is called, until it is
      reopened. */
  lemma {:induction false} StuckUntilReopened(core: Core, st: SqlState, calls: seq<SqlCall>)
    requires st.txn.Some? && forall i :: 0 <= i < |calls| ==> !calls[i].Reopen?
    ensures SqlFrom(core, st, calls) == st
    ensures forall c, fault :: !SqlApply(core, st, c, fault).1.Accepted?
    ensures forall ref, executor :: SqlClaim(st, ref, executor).1 == Locked
    ensures forall content :: SqlPutBlob(st, content).1.None?
    decreases |calls|
  {
    if calls != [] { StuckUntilReopened(core, st, calls[1..]); }
  }
}
