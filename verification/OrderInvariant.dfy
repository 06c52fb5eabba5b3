/** The invariant of the order protocol and its preservation by every step. */
module OrderInvariant {
  import opened Orders
  import opened SessionStore
  import opened OrderProtocol
  import opened OrderLadder
  import opened OrderSync

  ghost function StageOf(w: Worker, i: int): Option<Stage> {
    if w.dispatch.Some? && w.dispatch.value.row == i then Some(w.dispatch.value.stage) else None
  }

  ghost predicate AllSynced(rows: seq<OrderRow>, b: Broker, w: Worker) {
    forall i :: 0 <= i < |rows| ==> Synced(rows[i], b, StageOf(w, i))
  }

  ghost predicate Known(rows: seq<OrderRow>, id: ClientId) {
    exists i :: 0 <= i < |rows| && rows[i].id == id
  }

  ghost predicate Absent(rows: seq<OrderRow>, id: ClientId) {
    forall i :: 0 <= i < |rows| ==> rows[i].id != id
  }

  ghost predicate Touched(b: Broker, id: ClientId) {
    id in b.orders || id in b.wire || id in b.refused || b.posts[id] > 0
  }

  ghost predicate NoStrays(rows: seq<OrderRow>, b: Broker) {
    forall id :: Touched(b, id) ==> Known(rows, id)
  }

  ghost function TrueNet(rows: seq<OrderRow>, b: Broker, symbol: Symbol): real {
    if rows == [] then 0.0
    else TrueNet(Front(rows), b, symbol)
         + if Last(rows).symbol == symbol then Delta(Last(rows).side, TrueFill(b, Last(rows).id)) else 0.0
  }

  /** The broker's position of a symbol is the sum of its fills. */
  ghost predicate PositionsAreFills(rows: seq<OrderRow>, b: Broker) {
    forall symbol :: Position(b, symbol) == TrueNet(rows, b, symbol)
  }

  ghost predicate ViewCurrent(rows: seq<OrderRow>, p: Pass) {
    forall symbol :: symbol in p.todo ==> Lane(p.own, symbol) == Lane(OwnRows(rows, p.cohort), symbol)
  }

  ghost predicate WorkerOk(rows: seq<OrderRow>, w: Worker) {
    && (w.dispatch.Some? ==> w.dispatch.value.row < |rows| && Free(w, rows[w.dispatch.value.row]))
    && (w.pass.Some? ==> ViewCurrent(rows, w.pass.value))
  }

  ghost predicate Inv(s: System) {
    && RowsOk(s.db)
    && AllSynced(s.db.rows, s.broker, s.worker)
    && NoStrays(s.db.rows, s.broker)
    && PositionsAreFills(s.db.rows, s.broker)
    && WorkerOk(s.db.rows, s.worker)
  }

  // ---- Frames ----

  ghost predicate AgreesExcept(b: Broker, c: Broker, id: ClientId) {
    forall x :: x != id ==>
      && (x in b.orders <==> x in c.orders) && (x in b.orders ==> b.orders[x] == c.orders[x])
      && (x in b.wire <==> x in c.wire) && (x in b.refused <==> x in c.refused)
      && b.posts[x] == c.posts[x]
  }

  ghost predicate PositionsMoved(b: Broker, c: Broker, row: OrderRow) {
    forall symbol :: Position(c, symbol) == Position(b, symbol)
      + if symbol == row.symbol then Delta(row.side, TrueFill(c, row.id) - TrueFill(b, row.id)) else 0.0
  }

  lemma {:induction false} TrueNetFrame(rows: seq<OrderRow>, b: Broker, c: Broker, id: ClientId, symbol: Symbol)
    requires AgreesExcept(b, c, id) && Absent(rows, id)
    ensures TrueNet(rows, b, symbol) == TrueNet(rows, c, symbol)
  {
    if rows != [] {
      TrueNetFrame(Front(rows), b, c, id, symbol);
      assert rows[|rows| - 1].id != id;
    }
  }

  lemma FrontAbsent(rows: seq<OrderRow>)
    requires rows != [] && IdsDistinct(rows)
    ensures Absent(Front(rows), Last(rows).id)
  {
  }

  lemma LaneKept(rows: seq<OrderRow>, after: seq<OrderRow>, row: OrderRow, cohort: Cohort, symbol: Symbol)
    requires LastChanged(rows, after, row) || after == rows + [row]
    requires !(row.cohort == cohort && row.symbol == symbol)
    ensures Lane(OwnRows(after, cohort), symbol) == Lane(OwnRows(rows, cohort), symbol)
  {
    var base := if after == rows + [row] then rows else Front(rows);
    FrontAppend(base, row);
    FrontAppend(OwnRows(base, cohort), row);
    assert OwnRows(after, cohort) == OwnRows(base, cohort) + if row.cohort == cohort then [row] else [];
    assert OwnRows(base, cohort) + [] == OwnRows(base, cohort);
    if base != rows {
      OwnRowsStep(rows, cohort);
      FrontAppend(OwnRows(base, cohort), Last(rows));
    }
  }

  lemma ViewKept(rows: seq<OrderRow>, after: seq<OrderRow>, row: OrderRow, w: Worker)
    requires LastChanged(rows, after, row) || after == rows + [row]
    requires WorkerOk(rows, w) && Free(w, row)
    ensures WorkerOk(after, w)
  {
    if w.pass.Some? {
      var p := w.pass.value;
      forall symbol | symbol in p.todo
        ensures Lane(p.own, symbol) == Lane(OwnRows(after, p.cohort), symbol)
      {
        LaneKept(rows, after, row, p.cohort, symbol);
      }
    }
  }

  // ---- Three ways a step can change the state ----

  lemma ChangeWorker(s: System, t: System)
    requires Inv(s) && t.db == s.db && t.broker == s.broker
    requires AllSynced(s.db.rows, s.broker, t.worker) && WorkerOk(s.db.rows, t.worker)
    ensures Inv(t)
  {
  }

  lemma SyncAfterChange(rows: seq<OrderRow>, after: seq<OrderRow>, row: OrderRow, b: Broker, c: Broker, w: Worker, v: Worker)
    requires IdsDistinct(rows) && LastChanged(rows, after, row) && AllSynced(rows, b, w)
    requires AgreesExcept(b, c, row.id)
    requires Synced(row, c, StageOf(v, |rows| - 1))
    requires forall i :: 0 <= i < |rows| - 1 ==> StageOf(v, i) == None
    ensures AllSynced(after, c, v)
  {
    forall i | 0 <= i < |after| ensures Synced(after[i], c, StageOf(v, i)) {
      if i < |rows| - 1 {
        assert after[i] == rows[i] && rows[i].id != rows[|rows| - 1].id;
        assert Synced(rows[i], b, StageOf(w, i));
        SyncedElsewhere(rows[i], b, c, row.id, StageOf(w, i));
      }
    }
  }

  lemma SyncedElsewhere(row: OrderRow, b: Broker, c: Broker, id: ClientId, stage: Option<Stage>)
    requires Synced(row, b, stage) && row.id != id && AgreesExcept(b, c, id)
    ensures Synced(row, c, None)
  {
  }

  lemma StraysAfterChange(rows: seq<OrderRow>, after: seq<OrderRow>, row: OrderRow, b: Broker, c: Broker)
    requires NoStrays(rows, b) && LastChanged(rows, after, row) && AgreesExcept(b, c, row.id)
    ensures NoStrays(after, c)
  {
    forall id | Touched(c, id) ensures Known(after, id) {
      assert after[|after| - 1].id == row.id;
      if id != row.id {
        assert Touched(b, id);
        var i :| 0 <= i < |rows| && rows[i].id == id;
        assert after[i].id == id;
      }
    }
  }

  lemma PositionsAfterChange(rows: seq<OrderRow>, after: seq<OrderRow>, row: OrderRow, b: Broker, c: Broker)
    requires IdsDistinct(rows) && LastChanged(rows, after, row) && PositionsAreFills(rows, b)
    requires AgreesExcept(b, c, row.id) && PositionsMoved(b, c, row)
    ensures PositionsAreFills(after, c)
  {
    FrontAppend(Front(rows), row);
    FrontAbsent(rows);
    forall symbol ensures Position(c, symbol) == TrueNet(after, c, symbol) {
      TrueNetFrame(Front(rows), b, c, row.id, symbol);
      assert Position(b, symbol) == TrueNet(rows, b, symbol);
    }
  }

  lemma ChangeLast(s: System, t: System, row: OrderRow)
    requires Inv(s) && LastChanged(s.db.rows, t.db.rows, row) && t.db.claims == s.db.claims
    requires 0.0 <= row.filled <= row.quantity && Conserved(t.db)
    requires AgreesExcept(s.broker, t.broker, row.id) && PositionsMoved(s.broker, t.broker, row)
    requires Synced(row, t.broker, StageOf(t.worker, |s.db.rows| - 1))
    requires forall i :: 0 <= i < |s.db.rows| - 1 ==> StageOf(t.worker, i) == None
    requires WorkerOk(t.db.rows, t.worker)
    ensures Inv(t)
  {
    RowsAfterChange(s.db, t.db, row);
    SyncAfterChange(s.db.rows, t.db.rows, row, s.broker, t.broker, s.worker, t.worker);
    StraysAfterChange(s.db.rows, t.db.rows, row, s.broker, t.broker);
    PositionsAfterChange(s.db.rows, t.db.rows, row, s.broker, t.broker);
  }

  lemma Append(s: System, t: System, row: OrderRow)
    requires Inv(s) && AllFinal(s.db.rows) && Fits(Holds(s.db.rows), row)
    requires t.db.rows == s.db.rows + [row] && s.db.claims <= t.db.claims && Conserved(t.db)
    requires row == NewRow(row.id, row.cohort, row.symbol, row.side, row.quantity, row.tradeClass, row.createdAt, row.exitAt)
    requires Absent(s.db.rows, row.id)
    requires row.side.Buy? ==> row.id.EntryId? && row.id.claim in t.db.claims
    requires row.side.Sell? ==> SellNumbered(s.db.rows, row)
    requires t.broker == s.broker && t.worker.dispatch.None?
    requires WorkerOk(t.db.rows, t.worker)
    ensures Inv(t)
  {
    var rows, after := s.db.rows, t.db.rows;
    RowsAfterAppend(s.db, t.db, row);
    FrontAppend(rows, row);
    assert !Touched(s.broker, row.id);
    forall i | 0 <= i < |after| ensures Synced(after[i], t.broker, StageOf(t.worker, i)) {
      if i < |rows| {
        SyncedDrop(rows[i], s.broker, StageOf(s.worker, i));
      }
    }
    forall id | Touched(t.broker, id) ensures Known(after, id) {
      var i :| 0 <= i < |rows| && rows[i].id == id;
      assert after[i].id == id;
    }
  }

  ghost predicate Active(row: OrderRow, b: Broker) {
    !Final(row.status) || row.id in b.wire || (row.id in b.orders && Open(b.orders[row.id]))
  }

  /** Whatever is still active at the broker, on the wire or in the store is the last row. */
  lemma ActiveIsLast(s: System, i: nat)
    requires Inv(s) && i < |s.db.rows|
    requires Active(s.db.rows[i], s.broker)
    ensures i == |s.db.rows| - 1
  {
    LadderFinalFront(s.db.rows);
    assert Synced(s.db.rows[i], s.broker, StageOf(s.worker, i));
    if Final(s.db.rows[i].status) { FinalIsSettled(s.db.rows[i], s.broker, StageOf(s.worker, i)); }
  }

  // ---- Budget bookkeeping of a change to the last row ----

  lemma ChargesKept(db: Db, after: Db, row: OrderRow)
    requires Conserved(db) && LastChanged(db.rows, after.rows, row) && after.budget == db.budget
    requires row.released == Last(db.rows).released
    ensures Conserved(after)
  {
    FrontAppend(Front(db.rows), row);
  }

  /** Releasing the last buy never finds a counter too small. */
  lemma ReleaseConserves(db: Db, i: nat, claimed: bool)
    requires RowsOk(db) && i == |db.rows| - 1 && db.rows[i].side.Buy? && Releasable(db.rows[i], claimed)
    ensures ExpireUnsent(db, i, claimed).Released?
    ensures Conserved(ExpireUnsent(db, i, claimed).db)
  {
    var row := db.rows[i].(status := OrderStatus.Expired, released := true);
    assert db.rows[i := row] == Front(db.rows) + [row];
    FrontAppend(Front(db.rows), row);
  }
}
