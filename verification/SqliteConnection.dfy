/**
 One connection used from one thread: which handle a call reaches, what a transaction leaves in the
 database, and when the remembered row id may stand in for the one SQLite reports.

 The contents of the database are given by the statements that took effect, in order; whether a
 call into SQLite succeeds is a parameter of each operation.
 */
module SqliteConnection {
  import opened Wrappers

  /** A statement and the row id it inserts, if it inserts a row. */
  datatype Stmt = Stmt(text: string, inserts: Option<int>)

  /** The SQLite handle and the row id the connection remembers. */
  datatype Db = Db(contents: seq<Stmt>, saved: Option<seq<Stmt>>, rowid: int, lastKnown: int)

  /** One call on the connection, with how SQLite answers. */
  datatype Call =
    | Execute(stmt: Stmt, ok: bool)              // records the row id on success
    | Batch(stmts: seq<Stmt>)                    // the statements of a batch that succeed
    | Query(stmt: Stmt, ok: bool)                // rows are fetched, no row id is recorded
    | Lookup(ok: bool)                           // last_insert_rowid
    | Begin(ok: bool)
    | Commit(ok: bool, rollbackOk: bool)
    | Drop(rollbackOk: bool)

  function RunStmt(db: Db, stmt: Stmt): Db {
    db.(contents := db.contents + [stmt], rowid := stmt.inserts.GetOr(db.rowid))
  }

  function RunStmts(db: Db, stmts: seq<Stmt>): Db {
    if stmts == [] then db else RunStmt(RunStmts(db, stmts[..|stmts| - 1]), stmts[|stmts| - 1])
  }

  function Rollback(db: Db, ok: bool): Db {
    if ok && db.saved.Some? then db.(contents := db.saved.value, saved := None) else db
  }

  function Perform(db: Db, call: Call): Db {
    match call
    case Execute(stmt, ok) => if ok then (var after := RunStmt(db, stmt); after.(lastKnown := after.rowid)) else db
    case Batch(stmts) => RunStmts(db, stmts)
    case Query(stmt, ok) => if ok then RunStmt(db, stmt) else db
    case Lookup(ok) => if ok then db.(lastKnown := db.rowid) else db
    case Begin(ok) => if ok && db.saved.None? then db.(saved := Some(db.contents)) else db
    case Commit(ok, rollbackOk) => if ok then db.(saved := None) else Rollback(db, rollbackOk)
    case Drop(rollbackOk) => Rollback(db, rollbackOk)
  }

  function PerformAll(db: Db, calls: seq<Call>): Db {
    if calls == [] then db else Perform(PerformAll(db, calls[..|calls| - 1]), calls[|calls| - 1])
  }

  // ----- the remembered row id -----

  predicate Records(call: Call) {
    (call.Execute? || call.Lookup?) && call.ok
  }

  function LastInserted(stmts: seq<Stmt>): Option<int> {
    if stmts == [] then None
    else if stmts[|stmts| - 1].inserts.Some? then stmts[|stmts| - 1].inserts
    else LastInserted(stmts[..|stmts| - 1])
  }

  /** The row id a call inserts without recording it. */
  function InsertsUnrecorded(call: Call): Option<int> {
    match call
    case Batch(stmts) => LastInserted(stmts)
    case Query(stmt, ok) => if ok then stmt.inserts else None
    case _ => None
  }

  /** The last row id inserted by a batch or a query since a row id was last recorded. */
  function Unrecorded(calls: seq<Call>): Option<int> {
    if calls == [] then None
    else
      var last := calls[|calls| - 1];
      if Records(last) then None
      else if InsertsUnrecorded(last).Some? then InsertsUnrecorded(last)
      else Unrecorded(calls[..|calls| - 1])
  }

  lemma {:induction false} RunStmtsView(db: Db, stmts: seq<Stmt>)
    ensures var after := RunStmts(db, stmts);
            && after.contents == db.contents + stmts
            && after.rowid == LastInserted(stmts).GetOr(db.rowid)
            && after.saved == db.saved && after.lastKnown == db.lastKnown
  {
    if stmts != [] {
      RunStmtsView(db, stmts[..|stmts| - 1]);
      assert stmts == stmts[..|stmts| - 1] + [stmts[|stmts| - 1]];
    }
  }

  /**
   The fallback of `last_insert_rowid` is right exactly when no batch and no query inserted a row
   since the last recorded value; or, the case of coincidence, the last one that did happened to insert
   that very value.
   */
  lemma {:induction false} FallbackRight(start: Db, calls: seq<Call>)
    requires start.lastKnown == start.rowid
    ensures var db := PerformAll(start, calls);
            && (Unrecorded(calls).None? ==> db.lastKnown == db.rowid)
            && (Unrecorded(calls).Some? ==> db.rowid == Unrecorded(calls).value)
            && (db.lastKnown == db.rowid <==> Unrecorded(calls).None? || Unrecorded(calls).value == db.lastKnown)
  {
    if calls != [] {
      FallbackRight(start, calls[..|calls| - 1]);
      var last := calls[|calls| - 1];
      if last.Batch? {
        RunStmtsView(PerformAll(start, calls[..|calls| - 1]), last.stmts);
      }
    }
  }

  /** A batch insert, and equally a query that inserts, leaves the fallback behind. */
  lemma FallbackMissesBatchAndQuery()
    ensures var start := Db([], None, 0, 0);
            && PerformAll(start, [Batch([Stmt("INSERT", Some(5))])]).rowid == 5
            && PerformAll(start, [Batch([Stmt("INSERT", Some(5))])]).lastKnown == 0
            && PerformAll(start, [Query(Stmt("INSERT RETURNING", Some(5)), true)]).rowid == 5
            && PerformAll(start, [Query(Stmt("INSERT RETURNING", Some(5)), true)]).lastKnown == 0
  {
    var start := Db([], None, 0, 0);
    var batch, query := Batch([Stmt("INSERT", Some(5))]), Query(Stmt("INSERT RETURNING", Some(5)), true);
    assert [batch][..0] == [] && [query][..0] == [];
    RunStmtsView(start, batch.stmts);
    assert batch.stmts[..0] == [];
  }

  // ----- transactions -----

  predicate InsideTransaction(call: Call) {
    call.Execute? || call.Batch? || call.Query? || call.Lookup?
  }

  /** The statements of one call that take effect. */
  function Effect(call: Call): seq<Stmt> {
    match call
    case Execute(stmt, ok) => if ok then [stmt] else []
    case Query(stmt, ok) => if ok then [stmt] else []
    case Batch(stmts) => stmts
    case _ => []
  }

  function Effects(calls: seq<Call>): seq<Stmt> {
    if calls == [] then [] else Effects(calls[..|calls| - 1]) + Effect(calls[|calls| - 1])
  }

  lemma EffectApplies(db: Db, call: Call)
    requires InsideTransaction(call)
    ensures Perform(db, call).contents == db.contents + Effect(call) && Perform(db, call).saved == db.saved
  {
    if call.Batch? {
      RunStmtsView(db, call.stmts);
    }
  }

  lemma {:induction false} EffectsApply(start: Db, calls: seq<Call>)
    requires forall c :: c in calls ==> InsideTransaction(c)
    ensures PerformAll(start, calls).contents == start.contents + Effects(calls)
    ensures PerformAll(start, calls).saved == start.saved
  {
    hide Perform, Effect;
    if calls != [] {
      var last := calls[|calls| - 1];
      EffectsApply(start, calls[..|calls| - 1]);
      EffectApplies(PerformAll(start, calls[..|calls| - 1]), last);
    }
  }

  /** BEGIN remembers the contents as they are; inside a transaction, or when it fails, it changes nothing. */
  lemma BeginExactly(db: Db, ok: bool)
    ensures Perform(db, Begin(ok)).saved == if ok && db.saved.None? then Some(db.contents) else db.saved
    ensures Perform(db, Begin(ok)).(saved := db.saved) == db
  {
  }

  /**
   A transaction is all or nothing: COMMIT keeps its statements in order; drop, or a failed COMMIT,
   puts back the contents at BEGIN once the ROLLBACK succeeds. Either way `last_insert_rowid`
   stays where the transaction left it.
   */
  lemma TransactionAllOrNothing(db: Db, body: seq<Call>, end: Call)
    requires db.saved.None? && (forall c :: c in body ==> InsideTransaction(c)) && (end.Commit? || end.Drop?)
    ensures var inside := PerformAll(Perform(db, Begin(true)), body);
            var after := Perform(inside, end);
            && after.rowid == inside.rowid && after.lastKnown == inside.lastKnown
            && (end.Commit? && end.ok ==> after.contents == db.contents + Effects(body) && after.saved.None?)
            && ((end.Drop? || !end.ok) && end.rollbackOk ==> after.contents == db.contents && after.saved.None?)
            && ((end.Drop? || !end.ok) && !end.rollbackOk ==> after == inside && after.saved == Some(db.contents))
  {
    EffectsApply(Perform(db, Begin(true)), body);
  }

  // ----- the objects -----

  class Connection {
    var contents: seq<Stmt>
    var saved: Option<seq<Stmt>>
    var rowid: int
    var inPool: bool          // the handle is in the pool
    var slot: Option<Transaction>
    var lastKnown: int

    function View(): Db
      reads this
    {
      Db(contents, saved, rowid, lastKnown)
    }

    /** The handle is out of the pool exactly while the slot names the live transaction holding it. */
    ghost predicate Valid()
      reads this, if slot.Some? then {slot.value} else {}
    {
      && (inPool <==> slot.None?)
      && (slot.Some? ==> slot.value.conn == this && slot.value.holds && slot.value.active)
    }

    constructor ()
      ensures Valid() && slot.None? && View() == Db([], None, 0, 0)
    {
      contents, saved, rowid, inPool, slot, lastKnown := [], None, 0, true, None, 0;
    }

    /** A nested call is refused; a failed BEGIN hands the handle back. */
    method UncheckedTransaction(beginOk: bool) returns (r: Result<Transaction>)
      requires Valid()
      modifies this
      ensures Valid()
      ensures r.Ok? <==> old(slot).None? && beginOk && old(saved).None?
      ensures r.Ok? ==> fresh(r.value) && slot == Some(r.value) && View() == Perform(old(View()), Begin(true))
      ensures r.Err? ==> slot == old(slot) && View() == old(View())
    {
      if slot.Some? {
        return Err;
      }
      inPool := false;
      if !beginOk || saved.Some? {
        inPool := true;
        return Err;
      }
      saved := Some(contents);
      var tx := new Transaction(this);
      slot := Some(tx);
      return Ok(tx);
    }

    /** Runs on the held handle inside a transaction and on the pool's otherwise: it is one handle. */
    method ExecuteParams(stmt: Stmt, ok: bool) returns (r: Result<()>)
      requires Valid()
      modifies this
      ensures Valid() && slot == old(slot)
      ensures View() == Perform(old(View()), Execute(stmt, ok)) && (r.Ok? <==> ok)
    {
      if !ok {
        return Err;
      }
      contents := contents + [stmt];
      if stmt.inserts.Some? {
        rowid := stmt.inserts.value;
      }
      lastKnown := rowid;
      return Ok(());
    }

    method FetchRows(stmt: Stmt, ok: bool) returns (r: Result<()>)
      requires Valid()
      modifies this
      ensures Valid() && slot == old(slot)
      ensures View() == Perform(old(View()), Query(stmt, ok)) && (r.Ok? <==> ok)
    {
      if !ok {
        return Err;
      }
      contents := contents + [stmt];
      if stmt.inserts.Some? {
        rowid := stmt.inserts.value;
      }
      return Ok(());
    }

    /** The batch stops at the first statement that fails; what ran before it stays. */
    method ExecuteBatch(stmts: seq<Stmt>, succeed: nat) returns (r: Result<()>)
      requires Valid()
      modifies this
      ensures Valid() && slot == old(slot)
      ensures View() == Perform(old(View()), Batch(stmts[..if succeed < |stmts| then succeed else |stmts|]))
      ensures r.Ok? <==> succeed >= |stmts|
    {
      assert stmts[..0] == [];
      for i := 0 to |stmts|
        invariant Valid() && slot == old(slot) && i <= succeed
        invariant View() == RunStmts(old(View()), stmts[..i])
      {
        if i == succeed {
          return Err;
        }
        assert stmts[..i + 1][..i] == stmts[..i];
        contents := contents + [stmts[i]];
        if stmts[i].inserts.Some? {
          rowid := stmts[i].inserts.value;
        }
      }
      assert stmts[..|stmts|] == stmts;
      return Ok(());
    }

    /** The handle's own value; the remembered one only when the lookup fails. */
    method LastInsertRowid(ok: bool) returns (id: int)
      requires Valid()
      modifies this
      ensures Valid() && slot == old(slot) && View() == Perform(old(View()), Lookup(ok))
      ensures id == if ok then old(rowid) else old(lastKnown)
    {
      if ok {
        lastKnown := rowid;
      }
      id := lastKnown;
    }
  }

  class Transaction {
    const conn: Connection
    var active: bool
    var holds: bool      // this object still keeps the handle out of the pool

    constructor (conn: Connection)
      ensures this.conn == conn && active && holds
    {
      this.conn := conn;
      active, holds := true, true;
    }

    /** COMMIT, or ROLLBACK if that fails; then the slot is emptied and the handle goes back. */
    method CommitTransaction(ok: bool, rollbackOk: bool) returns (r: Result<()>)
      requires conn.Valid() && conn.slot == Some(this)
      modifies this, conn
      ensures conn.Valid() && conn.slot.None? && !active && !holds
      ensures conn.View() == Perform(old(conn.View()), Commit(ok, rollbackOk)) && (r.Ok? <==> ok)
    {
      if ok {
        conn.saved := None;
        r := Ok(());
      } else {
        RollbackOnHandle(rollbackOk);
        r := Err;
      }
      active := false;
      ClearActiveTransaction();
      ReleaseConnection();
    }

    /** `Drop`: an unfinished transaction is rolled back first. */
    method DropTransaction(rollbackOk: bool)
      requires active ==> conn.Valid() && conn.slot == Some(this)
      requires !active ==> !holds
      modifies this, conn
      ensures !active && !holds
      ensures old(active) ==>
              conn.Valid() && conn.slot.None? && conn.View() == Perform(old(conn.View()), Drop(rollbackOk))
      ensures !old(active) ==>
              conn.View() == old(conn.View()) && conn.slot == old(conn.slot) && conn.inPool == old(conn.inPool)
    {
      if active {
        active := false;
        RollbackOnHandle(rollbackOk);
        ClearActiveTransaction();
      }
      ReleaseConnection();
    }

    method RollbackOnHandle(ok: bool)
      modifies conn
      ensures conn.View() == Rollback(old(conn.View()), ok)
      ensures conn.slot == old(conn.slot) && conn.inPool == old(conn.inPool)
    {
      if ok && conn.saved.Some? {
        conn.contents, conn.saved := conn.saved.value, None;
      }
    }

    /** Empties the slot if it names this transaction. */
    method ClearActiveTransaction()
      modifies conn
      ensures conn.slot == if old(conn.slot) == Some(this) then None else old(conn.slot)
      ensures conn.View() == old(conn.View()) && conn.inPool == old(conn.inPool)
    {
      if conn.slot == Some(this) {
        conn.slot := None;
      }
    }

    method ReleaseConnection()
      modifies this, conn
      ensures !holds && active == old(active)
      ensures conn.View() == old(conn.View()) && conn.slot == old(conn.slot)
      ensures conn.inPool == (old(conn.inPool) || old(holds))
    {
      if holds {
        holds := false;
        conn.inPool := true;
      }
    }
  }
}
