/** One preservation lemma per kind of step, and the induction over runs. */
module OrderSteps {
  import opened Orders
  import opened SessionStore
  import opened OrderProtocol
  import opened OrderLadder
  import opened OrderSync
  import opened OrderInvariant

  /** A stored-row-only change to an active row: it is the last row, and the broker is untouched. */
  lemma StoreLast(s: System, t: System, i: nat, row: OrderRow)
    requires Inv(s) && i < |s.db.rows| && !Final(s.db.rows[i].status)
    requires t.db.rows == s.db.rows[i := row] && t.db.claims == s.db.claims && t.broker == s.broker
    requires SameIntent(s.db.rows[i], row) && 0.0 <= row.filled <= row.quantity && Conserved(t.db)
    requires Synced(row, s.broker, StageOf(t.worker, i))
    requires t.worker.dispatch.Some? ==> t.worker.dispatch.value.row == i
    requires t.worker.pass == s.worker.pass && Free(s.worker, row)
    ensures Inv(t)
  {
    assert Active(s.db.rows[i], s.broker);
    ActiveIsLast(s, i);
    assert t.db.rows == Front(s.db.rows) + [row];
    assert LastChanged(s.db.rows, t.db.rows, row);
    ViewKept(s.db.rows, t.db.rows, row, s.worker);
    ChangeLast(s, t, row);
  }

  lemma RecordIsSet(db: Db, i: nat, snap: Snapshot)
    requires i < |db.rows|
    ensures RecordObservation(db, i, snap) == SetRow(db, i, Observed(db.rows[i], snap))
  {
    assert db.rows[i := db.rows[i]] == db.rows;
  }

  lemma ObserveKeeps(s: System, t: System, i: nat, k: nat)
    requires Inv(s) && Snapshotted(s, i, k) && Free(s.worker, s.db.rows[i])
    requires t.db == RecordObservation(s.db, i, s.broker.orders[s.db.rows[i].id].history[k])
    requires t.broker == s.broker && t.worker.pass == s.worker.pass && t.worker.dispatch.None?
    ensures Inv(t)
  {
    var row := s.db.rows[i];
    var snap := s.broker.orders[row.id].history[k];
    assert Synced(row, s.broker, StageOf(s.worker, i));
    ObserveSynced(row, s.broker, StageOf(s.worker, i), k);
    RecordIsSet(s.db, i, snap);
    if Final(row.status) {
      assert s.db.rows[i := row] == s.db.rows;
      DropDispatch(s, t);
    } else {
      LadderFits(s.db.rows, i);
      RowKeeps(s, t, i, Observed(row, snap));
    }
  }

  lemma DropDispatch(s: System, t: System)
    requires Inv(s) && t.db == s.db && t.broker == s.broker && t.worker.dispatch.None?
    requires WorkerOk(s.db.rows, t.worker)
    ensures Inv(t)
  {
    forall i | 0 <= i < |s.db.rows| ensures Synced(s.db.rows[i], s.broker, None) {
      assert Synced(s.db.rows[i], s.broker, StageOf(s.worker, i));
      SyncedDrop(s.db.rows[i], s.broker, StageOf(s.worker, i));
    }
    ChangeWorker(s, t);
  }

  lemma ExpireKeeps(s: System, t: System, i: nat, claimed: bool)
    requires Inv(s) && i < |s.db.rows| && s.db.rows[i].side.Buy? && Free(s.worker, s.db.rows[i])
    requires claimed <==> StageOf(s.worker, i) == Some(Prepared)
    requires t.db == Expire(s.db, i, claimed) && t.broker == s.broker
    requires t.worker.pass == s.worker.pass && t.worker.dispatch.None?
    ensures Inv(t)
  {
    var row := s.db.rows[i];
    assert Synced(row, s.broker, StageOf(s.worker, i));
    if Releasable(row, claimed) {
      var after := row.(status := OrderStatus.Expired, released := true);
      ActiveIsLast(s, i);
      ReleaseConserves(s.db, i, claimed);
      LadderFits(s.db.rows, i);
      StoreLast(s, t, i, after);
    } else {
      DropDispatch(s, t);
    }
  }

  lemma LastRowConserved(db: Db, i: nat, row: OrderRow)
    requires Conserved(db) && i == |db.rows| - 1
    requires SameIntent(db.rows[i], row) && row.released == db.rows[i].released
    ensures Conserved(SetRow(db, i, row))
  {
    assert db.rows[i := row] == Front(db.rows) + [row];
    ChargesKept(db, SetRow(db, i, row), row);
  }

  lemma RowKeeps(s: System, t: System, i: nat, row: OrderRow)
    requires Inv(s) && i < |s.db.rows| && !Final(s.db.rows[i].status)
    requires t.db == SetRow(s.db, i, row) && t.broker == s.broker
    requires SameIntent(s.db.rows[i], row) && row.released == s.db.rows[i].released
    requires 0.0 <= row.filled <= row.quantity
    requires Synced(row, s.broker, StageOf(t.worker, i))
    requires t.worker.dispatch.Some? ==> t.worker.dispatch.value.row == i
    requires t.worker.pass == s.worker.pass && Free(s.worker, row)
    ensures Inv(t)
  {
    ActiveIsLast(s, i);
    LastRowConserved(s.db, i, row);
    StoreLast(s, t, i, row);
  }

  lemma StatusKeeps(s: System, t: System, i: nat, row: OrderRow)
    requires Inv(s) && i < |s.db.rows| && !Final(s.db.rows[i].status)
    requires t.db == SetRow(s.db, i, row) && t.broker == s.broker
    requires SameIntent(s.db.rows[i], row) && row.filled == s.db.rows[i].filled && row.released == s.db.rows[i].released
    requires Synced(row, s.broker, StageOf(t.worker, i))
    requires t.worker.dispatch.Some? ==> t.worker.dispatch.value.row == i
    requires t.worker.pass == s.worker.pass && Free(s.worker, row)
    ensures Inv(t)
  {
    LadderFits(s.db.rows, i);
    RowKeeps(s, t, i, row);
  }

  lemma CancelKeeps(s: System, i: nat)
    requires Inv(s) && Enabled(s, CancelStep(i))
    ensures Inv(Next(s, CancelStep(i)))
  {
    var row := s.db.rows[i];
    var after := row.(status := CancelPending);
    assert Synced(row, s.broker, StageOf(s.worker, i));
    var k :| Recorded(row, s.broker.orders[row.id], k);
    assert Recorded(after, s.broker.orders[row.id], k);
    StatusKeeps(s, Next(s, CancelStep(i)), i, after);
  }

  lemma DispatchStepKeeps(s: System, a: Action)
    requires Inv(s) && Enabled(s, a) && (a.ClaimStep? || a.RecordAttempt? || a.RejectedByBroker? || a.RevalidationFailed?)
    requires Free(s.worker, Current(s))
    ensures Inv(Next(s, a))
  {
    var i := s.worker.dispatch.value.row;
    var row := s.db.rows[i];
    var t := Next(s, a);
    assert Synced(row, s.broker, StageOf(s.worker, i));
    if a.ClaimStep? {
      if row.status == Approved {
        StatusKeeps(s, t, i, row.(status := ReconciliationRequired));
      } else {
        DropDispatch(s, t);
      }
    } else if a.RecordAttempt? {
      StatusKeeps(s, t, i, row.(attempted := true));
    } else if a.RejectedByBroker? {
      StatusKeeps(s, t, i, row.(status := OrderStatus.Rejected));
    } else if row.side.Buy? {
      ExpireKeeps(s, t, i, true);
    } else {
      StatusKeeps(s, t, i, row.(status := OrderStatus.Expired));
    }
  }

  lemma PostKeeps(s: System)
    requires Inv(s) && Enabled(s, PostStep)
    ensures Inv(Next(s, PostStep))
  {
    var i := s.worker.dispatch.value.row;
    var row := s.db.rows[i];
    assert Synced(row, s.broker, StageOf(s.worker, i));
    BrokerKeeps(s, Next(s, PostStep), i);
  }

  /** The broker's own step on one id whose row is active: the row itself does not change. */
  lemma BrokerKeeps(s: System, t: System, i: nat)
    requires Inv(s) && i < |s.db.rows| && t.db == s.db
    requires Active(s.db.rows[i], s.broker)
    requires AgreesExcept(s.broker, t.broker, s.db.rows[i].id) && PositionsMoved(s.broker, t.broker, s.db.rows[i])
    requires Synced(s.db.rows[i], t.broker, StageOf(t.worker, i))
    requires t.worker.pass == s.worker.pass
    requires t.worker.dispatch.Some? ==> s.worker.dispatch.Some? && t.worker.dispatch.value.row == s.worker.dispatch.value.row
    requires forall j :: 0 <= j < |s.db.rows| && j != i ==> Synced(s.db.rows[j], s.broker, StageOf(t.worker, j))
    ensures Inv(t)
  {
    var rows := s.db.rows;
    var row := rows[i];
    ActiveIsLast(s, i);
    LadderFits(rows, i);
    assert LastChanged(rows, rows, row) by { assert rows == Front(rows) + [row]; }
    forall j | 0 <= j < |rows| ensures Synced(rows[j], t.broker, StageOf(t.worker, j)) {
      if j != i {
        assert rows[j].id != rows[i].id;
        SyncedFrame(rows[j], s.broker, t.broker, row.id, StageOf(t.worker, j));
      }
    }
    StraysAfterChange(rows, rows, row, s.broker, t.broker);
    PositionsAfterChange(rows, rows, row, s.broker, t.broker);
  }

  lemma SyncedFrame(row: OrderRow, b: Broker, c: Broker, id: ClientId, stage: Option<Stage>)
    requires Synced(row, b, stage) && row.id != id && AgreesExcept(b, c, id)
    ensures Synced(row, c, stage)
  {
  }

  lemma WireKeeps(s: System, a: Action, i: nat)
    requires Inv(s) && Enabled(s, a) && (a.BrokerRefuses? || a.WireLoses?)
    requires i < |s.db.rows| && s.db.rows[i].id == a.id
    ensures Inv(Next(s, a))
  {
    assert Synced(s.db.rows[i], s.broker, StageOf(s.worker, i));
    BrokerKeeps(s, Next(s, a), i);
  }

  lemma AcceptKeeps(s: System, i: nat, first: Snapshot)
    requires Inv(s) && Enabled(s, BrokerAccepts(i, first))
    ensures Inv(Next(s, BrokerAccepts(i, first)))
  {
    var t := Next(s, BrokerAccepts(i, first));
    var row := s.db.rows[i];
    assert Synced(row, s.broker, StageOf(s.worker, i));
    AcceptSynced(row, s.broker, StageOf(s.worker, i), first);
    AcceptFrame(row, s.broker, first);
    BrokerKeeps(s, t, i);
  }

  ghost function Accepted(row: OrderRow, b: Broker, first: Snapshot): Broker {
    Publish(b.(wire := b.wire - {row.id}), row.id,
            BrokerOrder(row.symbol, row.side, row.quantity, [first]), first.filled)
  }

  lemma AcceptSynced(row: OrderRow, b: Broker, stage: Option<Stage>, first: Snapshot)
    requires Synced(row, b, stage) && row.id in b.wire
    requires Publishable(row.id, row.symbol, row.side, row.quantity, first)
    ensures Synced(row, Accepted(row, b, first), stage)
  {
    assert Honest(row.id, BrokerOrder(row.symbol, row.side, row.quantity, [first]));
  }

  lemma AcceptFrame(row: OrderRow, b: Broker, first: Snapshot)
    requires row.id !in b.orders
    ensures AgreesExcept(b, Accepted(row, b, first), row.id)
    ensures PositionsMoved(b, Accepted(row, b, first), row)
  {
  }

  lemma MoveKeeps(s: System, id: ClientId, next: Snapshot, i: nat)
    requires Inv(s) && Enabled(s, BrokerMoves(id, next)) && i < |s.db.rows| && s.db.rows[i].id == id
    ensures Inv(Next(s, BrokerMoves(id, next)))
  {
    var t := Next(s, BrokerMoves(id, next));
    var row := s.db.rows[i];
    assert Synced(row, s.broker, StageOf(s.worker, i));
    var o, o' := s.broker.orders[id], t.broker.orders[id];
    HistoryExtends(row, o, next);
    if row.broker.Some? {
      var k :| Recorded(row, o, k);
      assert Recorded(row, o', k);
    }
    BrokerKeeps(s, t, i);
  }

  lemma HistoryExtends(row: OrderRow, o: BrokerOrder, next: Snapshot)
    requires Matches(row, o) && Open(o)
    requires Publishable(row.id, o.symbol, o.side, o.quantity, next) && next.brokerId == Latest(o).brokerId
    requires Latest(o).filled <= next.filled && Latest(o).updatedAt.value < next.updatedAt.value
    ensures Matches(row, o.(history := o.history + [next]))
  {
    var last := |o.history| - 1;
    var h := o.history + [next];
    assert Publishable(row.id, o.symbol, o.side, o.quantity, o.history[last]);
    forall j, k | 0 <= j < k < |h|
      ensures h[j].updatedAt.value < h[k].updatedAt.value && h[j].filled <= h[k].filled && !Terminal(h[j].status)
    {
      assert Publishable(row.id, o.symbol, o.side, o.quantity, o.history[j]);
      if k < |o.history| { assert Publishable(row.id, o.symbol, o.side, o.quantity, o.history[k]); }
    }
  }

  /** What an entry reservation adds to the store. */
  lemma EntryFits(db: Db, e: Intent)
    requires RowsOk(db) && e.quantity > 0.0 && e.limit <= 2
    requires ReserveEntry(db, e).1.Reserved?
    ensures var (after, result) := ReserveEntry(db, e);
      var row := result.row;
      && AllFinal(db.rows) && Fits(Holds(db.rows), row) && Absent(db.rows, row.id)
      && row == NewRow(EntryId(ClaimOf(e)), row.cohort, row.symbol, Buy, row.quantity, row.tradeClass, row.createdAt, row.exitAt)
      && after.rows == db.rows + [row] && after.claims == db.claims + {ClaimOf(e)}
      && Conserved(after)
  {
    FlatMeansNothing(db.rows);
    EntryIdFresh(db.rows, db.claims, ClaimOf(e));
    FrontAppend(db.rows, ReserveEntry(db, e).1.row);
  }

  lemma EntryAppends(s: System, t: System, row: OrderRow)
    requires Inv(s) && s.worker == IDLE && row.id.EntryId?
    requires AllFinal(s.db.rows) && Fits(Holds(s.db.rows), row) && Absent(s.db.rows, row.id)
    requires row == NewRow(row.id, row.cohort, row.symbol, Buy, row.quantity, row.tradeClass, row.createdAt, row.exitAt)
    requires t.db.rows == s.db.rows + [row] && t.db.claims == s.db.claims + {row.id.claim} && Conserved(t.db)
    requires t.broker == s.broker && t.worker == s.worker
    ensures Inv(t)
  {
    Append(s, t, row);
  }

  lemma EnterKeeps(s: System, e: Intent)
    requires Inv(s) && Enabled(s, EnterStep(e))
    ensures Inv(Next(s, EnterStep(e)))
  {
    var t := Next(s, EnterStep(e));
    match ReserveEntry(s.db, e).1
    case Reserved(row) =>
      EntryFits(s.db, e);
      EntryAppends(s, t, row);
    case _ => assert t == s;
  }

  /** What an exit reservation adds to the store. */
  lemma ExitFits(db: Db, p: Pass, symbol: Symbol, now: int)
    requires RowsOk(db) && ViewCurrent(db.rows, p) && symbol in p.todo
    requires OpenBuys(p.own, symbol) != [] && Inventory(p.own, symbol) > 0.0
    requires AllFinal(OwnRows(db.rows, p.cohort))
    ensures AllFinal(db.rows)
    ensures var row := ExitRow(p.own, p.cohort, symbol, now);
      Fits(Holds(db.rows), row) && SellNumbered(db.rows, row) && Absent(db.rows, row.id)
  {
    var current := OwnRows(db.rows, p.cohort);
    LaneDetermines(p.own, symbol);
    LaneDetermines(current, symbol);
    var row := ExitRow(p.own, p.cohort, symbol, now);
    ExitFindsEverythingFinal(db.rows, p.cohort, symbol);
    OpenBuyIsEntry(db.rows, p.cohort, symbol);
    LadderInventory(db.rows, symbol);
    var j :| IsEntry(db.rows, j, Holds(db.rows)) && OpenBuys(current, symbol) == [db.rows[j]];
    assert EntryAt(db.rows, j, row);
    ExitIdFresh(db.rows, db.claims, row);
  }

  lemma ExitKeeps(s: System, symbol: Symbol, now: int)
    requires Inv(s) && ExitReady(s, symbol)
    ensures Inv(Next(s, ExitStep(symbol, now)))
  {
    var t := Next(s, ExitStep(symbol, now));
    var p := s.worker.pass.value;
    if AllFinal(OwnRows(s.db.rows, p.cohort)) {
      ExitFits(s.db, p, symbol, now);
      ExitAppends(s, t, ExitRow(p.own, p.cohort, symbol, now));
    } else {
      assert t.db == s.db;
      DropDispatch(s, t);
    }
  }

  lemma ExitAppends(s: System, t: System, row: OrderRow)
    requires Inv(s) && s.worker.pass.Some? && row.side.Sell?
    requires AllFinal(s.db.rows) && Fits(Holds(s.db.rows), row) && SellNumbered(s.db.rows, row) && Absent(s.db.rows, row.id)
    requires row == NewRow(row.id, row.cohort, row.symbol, Sell, row.quantity, row.tradeClass, row.createdAt, row.exitAt)
    requires t.db == s.db.(rows := s.db.rows + [row]) && t.broker == s.broker
    requires var p := s.worker.pass.value;
      t.worker == Worker(Some(p.(todo := p.todo - {row.symbol})), None)
    ensures Inv(t)
  {
    ExitView(s.db.rows, row, s.worker, row.symbol);
    FrontAppend(s.db.rows, row);
    Append(s, t, row);
  }

  lemma ExitView(rows: seq<OrderRow>, row: OrderRow, w: Worker, symbol: Symbol)
    requires WorkerOk(rows, w) && w.pass.Some? && row.symbol == symbol
    ensures ViewCurrent(rows + [row], w.pass.value.(todo := w.pass.value.todo - {symbol}))
  {
    var p := w.pass.value;
    forall sym | sym in p.todo - {symbol}
      ensures Lane(p.own, sym) == Lane(OwnRows(rows + [row], p.cohort), sym)
    {
      LaneKept(rows, rows + [row], row, p.cohort, sym);
    }
  }

  ghost predicate Holder(h: Holding, cohort: Cohort, symbol: Symbol) {
    h.Held? && h.cohort == cohort && h.symbol == symbol
  }

  ghost predicate IsEntry(rows: seq<OrderRow>, j: int, h: Holding) {
    h.Held? && 0 <= j < |rows| && rows[j].id == h.entry && rows[j].side.Buy? && rows[j].symbol == h.symbol
    && rows[j].cohort == h.cohort && rows[j].tradeClass == h.tradeClass
  }

  /** The exit loop's list for this cohort and symbol is the single buy that opened the held round. */
  ghost predicate OpensWith(rows: seq<OrderRow>, cohort: Cohort, symbol: Symbol) {
    var buys := OpenBuys(OwnRows(rows, cohort), symbol);
    if Holder(Holds(rows), cohort, symbol)
    then exists j :: IsEntry(rows, j, Holds(rows)) && buys == [rows[j]]
    else buys == []
  }

  lemma {:induction false} OpenBuyIsEntry(rows: seq<OrderRow>, cohort: Cohort, symbol: Symbol)
    requires Ladder(rows)
    ensures OpensWith(rows, cohort, symbol)
  {
    if rows != [] {
      OpenBuyIsEntry(Front(rows), cohort, symbol);
      LadderInventory(rows, symbol);
      LadderOwnInventory(rows, cohort, symbol);
      OwnRowsStep(rows, cohort);
      if Last(rows).cohort == cohort && Last(rows).symbol == symbol {
        OpenBuyStep(rows, cohort, symbol);
      } else {
        OpenBuyOther(rows, cohort, symbol);
      }
    }
  }

  lemma EntryStays(rows: seq<OrderRow>, j: int, h: Holding)
    requires rows != [] && IsEntry(Front(rows), j, h)
    ensures IsEntry(rows, j, h) && rows[j] == Front(rows)[j]
  {
  }

  /** A row of another cohort or symbol comes only while this cohort does not hold this symbol. */
  lemma HolderOther(rows: seq<OrderRow>, cohort: Cohort, symbol: Symbol)
    requires rows != [] && Ladder(rows)
    requires !(Last(rows).cohort == cohort && Last(rows).symbol == symbol)
    ensures !Holder(Holds(rows), cohort, symbol) && !Holder(Holds(Front(rows)), cohort, symbol)
  {
  }

  lemma OpenBuysOther(rows: seq<OrderRow>, cohort: Cohort, symbol: Symbol)
    requires rows != []
    requires !(Last(rows).cohort == cohort && Last(rows).symbol == symbol)
    ensures OpenBuys(OwnRows(rows, cohort), symbol) == OpenBuys(OwnRows(Front(rows), cohort), symbol)
  {
    OwnRowsStep(rows, cohort);
    FrontAppend(OwnRows(Front(rows), cohort), Last(rows));
  }

  lemma OpenBuyOther(rows: seq<OrderRow>, cohort: Cohort, symbol: Symbol)
    requires rows != [] && Ladder(rows) && OpensWith(Front(rows), cohort, symbol)
    requires !(Last(rows).cohort == cohort && Last(rows).symbol == symbol)
    ensures OpensWith(rows, cohort, symbol)
  {
    HolderOther(rows, cohort, symbol);
    OpenBuysOther(rows, cohort, symbol);
  }

  lemma OpenBuyStep(rows: seq<OrderRow>, cohort: Cohort, symbol: Symbol)
    requires rows != [] && Ladder(rows) && OpensWith(Front(rows), cohort, symbol)
    requires Last(rows).cohort == cohort && Last(rows).symbol == symbol
    requires Inventory(OwnRows(rows, cohort), symbol)
          == if Holds(rows).Held? && Holds(rows).cohort == cohort then QuantityIn(Holds(rows), symbol) else 0.0
    requires Holds(rows).Held? ==> Holds(rows).quantity > 0.0
    ensures OpensWith(rows, cohort, symbol)
  {
    var front, last := Front(rows), Last(rows);
    var own := OwnRows(front, cohort);
    OwnRowsStep(rows, cohort);
    FrontAppend(own, last);
    assert rows[|rows| - 1] == last;
    if last.side.Buy? {
      assert OpenBuys(own, symbol) == [];
      if last.filled > 0.0 {
        assert IsEntry(rows, |rows| - 1, Holds(rows));
      }
    } else {
      var j :| IsEntry(front, j, Holds(front)) && OpenBuys(own, symbol) == [front[j]];
      EntryStays(rows, j, Holds(front));
      if Holds(rows).Held? {
        assert IsEntry(rows, j, Holds(rows));
      }
    }
  }

  lemma ObservationStepKeeps(s: System, a: Action)
    requires Inv(s) && Enabled(s, a) && (a.ObserveStep? || a.Found? || a.Acknowledged?)
    ensures Inv(Next(s, a))
  {
    ObserveKeeps(s, Next(s, a), if a.ObserveStep? then a.i else s.worker.dispatch.value.row, a.k);
  }

  lemma WorkerStepKeeps(s: System, a: Action)
    requires Inv(s) && Enabled(s, a)
    requires a.BeginPass? || a.ReadPositions? || a.EndPass? || a.StartDispatch? || a.NotFound? || a.Abandon? || a.Crash?
    ensures Inv(Next(s, a))
  {
    var t := Next(s, a);
    forall i | 0 <= i < |s.db.rows| ensures Synced(s.db.rows[i], s.broker, StageOf(t.worker, i)) {
      SyncedDrop(s.db.rows[i], s.broker, StageOf(s.worker, i));
    }
    ChangeWorker(s, t);
  }

  lemma ScheduleKeeps(s: System, request: nat)
    requires Inv(s) && Enabled(s, ScheduleStep(request))
    ensures Inv(Next(s, ScheduleStep(request)))
  {
  }

  lemma ImportConserves(db: Db, bought: set<ClientId>, brokerIds: set<nat>)
    requires Conserved(db)
    ensures var after := Import(db, bought, brokerIds);
      && Conserved(after) && after.rows == db.rows && after.claims == db.claims
      && db.budget.external <= after.budget.external && db.budget.total <= after.budget.total
  {
    var before, external := db.budget.external, bought - LocalIds(db.rows);
    if before <= external {
      assert external == before + (external - before);
      assert |external| == |before| + |external - before|;
    }
  }

  lemma BudgetKeeps(s: System, after: Db)
    requires Inv(s) && Conserved(after) && after.rows == s.db.rows && after.claims == s.db.claims
    ensures Inv(s.(db := after))
  {
  }

  lemma ImportKeeps(s: System, a: Action, after: Db)
    requires Inv(s) && a.ImportStep? && after == Import(s.db, a.bought, a.brokerIds)
    requires Conserved(after) && after.rows == s.db.rows && after.claims == s.db.claims
    ensures Inv(Next(s, a))
  {
    BudgetKeeps(s, after);
  }

  lemma EnvironmentStepKeeps(s: System, a: Action)
    requires Inv(s) && Enabled(s, a) && (a.BrokerRefuses? || a.WireLoses? || a.BrokerMoves?)
    ensures Inv(Next(s, a))
  {
    assert Touched(s.broker, a.id);
    var i :| 0 <= i < |s.db.rows| && s.db.rows[i].id == a.id;
    if a.BrokerMoves? { MoveKeeps(s, a.id, a.next, i); } else { WireKeeps(s, a, i); }
  }

  lemma StepKeeps(s: System, a: Action)
    requires Inv(s) && Enabled(s, a)
    ensures Inv(Next(s, a))
  {
    match a
    case EnterStep(e) => EnterKeeps(s, e);
    case ScheduleStep(request) => ScheduleKeeps(s, request);
    case ImportStep(bought, brokerIds) =>
      ImportConserves(s.db, bought, brokerIds);
      ImportKeeps(s, a, Import(s.db, bought, brokerIds));
    case ObserveStep(_, _) => ObservationStepKeeps(s, a);
    case Found(_) => ObservationStepKeeps(s, a);
    case Acknowledged(_) => ObservationStepKeeps(s, a);
    case ExpireStep(i) => ExpireKeeps(s, Next(s, a), i, false);
    case CancelStep(i) => CancelKeeps(s, i);
    case ExitStep(symbol, now) => ExitKeeps(s, symbol, now);
    case ClaimStep => DispatchStepKeeps(s, a);
    case RecordAttempt => DispatchStepKeeps(s, a);
    case RejectedByBroker => DispatchStepKeeps(s, a);
    case RevalidationFailed => DispatchStepKeeps(s, a);
    case PostStep => PostKeeps(s);
    case BrokerAccepts(i, first) => AcceptKeeps(s, i, first);
    case BrokerRefuses(_) => EnvironmentStepKeeps(s, a);
    case WireLoses(_) => EnvironmentStepKeeps(s, a);
    case BrokerMoves(_, _) => EnvironmentStepKeeps(s, a);
    case _ => WorkerStepKeeps(s, a);
  }

  lemma {:induction false} RunKeeps(steps: seq<Action>)
    ensures After(steps).Some? ==> Inv(After(steps).value)
    decreases |steps|
  {
    if steps != [] {
      var front := steps[..|steps| - 1];
      RunKeeps(front);
      if After(steps).Some? {
        StepKeeps(After(front).value, steps[|steps| - 1]);
      }
    }
  }

  lemma ReachableInv(s: System)
    requires Reachable(s)
    ensures Inv(s)
  {
    var steps :| After(steps) == Some(s);
    RunKeeps(steps);
  }
}
