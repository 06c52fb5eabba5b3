/** The protocol can do its work: every admissible first entry can be bought, filled and sold again. */
module OrderRun {
  import opened Orders
  import opened SessionStore
  import opened OrderProtocol

  lemma StartIsReachable()
    ensures Reachable(INITIAL)
  {
    assert After([]) == Some(INITIAL);
  }

  lemma ReachableNext(s: System, a: Action)
    requires Reachable(s) && Enabled(s, a)
    ensures Reachable(Next(s, a))
  {
    var steps :| After(steps) == Some(s);
    var more := steps + [a];
    assert more[..|steps|] == steps && more[|steps|] == a;
    assert After(more) == Some(Next(s, a));
  }

  /** A row whose order the broker fills whole in its first snapshot. */
  function FilledSnapshot(row: OrderRow, brokerId: nat, at: int): Snapshot {
    Snapshot(brokerId, row.id, row.symbol, row.side, BrokerStatus.Filled, row.quantity, Some(1.0), Some(at), Some(at))
  }

  function FilledRow(row: OrderRow, snap: Snapshot): OrderRow {
    row.(brokerId := Some(snap.brokerId), filled := snap.filled, status := OrderStatus.Filled, broker := Some(snap), attempted := true)
  }

  function Booked(b: Broker, row: OrderRow, snap: Snapshot): Broker {
    Publish(b.(posts := b.posts + multiset{row.id}), row.id, BrokerOrder(row.symbol, row.side, row.quantity, [snap]), snap.filled)
  }

  /** From lookup to the claim. */
  lemma Claims(s: System, i: nat) returns (t: System)
    requires Reachable(s) && s.worker.dispatch.None? && i < |s.db.rows| && Free(s.worker, s.db.rows[i])
    requires s.db.rows[i].status == Approved
    ensures Reachable(t)
    ensures t == System(SetRow(s.db, i, s.db.rows[i].(status := ReconciliationRequired)), s.broker,
                        s.worker.(dispatch := Some(Dispatch(i, Prepared))))
  {
    ReachableNext(s, StartDispatch(i));
    var a := Next(s, StartDispatch(i));
    ReachableNext(a, NotFound);
    var b := Next(a, NotFound);
    ReachableNext(b, ClaimStep);
    t := Next(b, ClaimStep);
  }

  /** From the POST to the broker's fill. */
  lemma PostsAndFills(s: System, i: nat, snap: Snapshot) returns (t: System)
    requires Reachable(s) && i < |s.db.rows| && s.worker.dispatch == Some(Dispatch(i, Prepared))
    requires snap.updatedAt.Some?
    requires var row := s.db.rows[i];
      row.quantity >= 0.0 && row.id !in s.broker.wire && snap == FilledSnapshot(row, snap.brokerId, snap.updatedAt.value)
    ensures Reachable(t)
    ensures t == System(s.db, Booked(s.broker, s.db.rows[i], snap), s.worker.(dispatch := Some(Dispatch(i, Posted))))
  {
    var row := s.db.rows[i];
    ReachableNext(s, PostStep);
    var a := Next(s, PostStep);
    ReachableNext(a, BrokerAccepts(i, snap));
    t := Next(a, BrokerAccepts(i, snap));
    assert s.broker.wire + {row.id} - {row.id} == s.broker.wire;
  }

  /** The whole fill, seen for the first time, becomes the row's stored state. */
  lemma RecordsFill(db: Db, i: nat, snap: Snapshot)
    requires i < |db.rows| && snap.updatedAt.Some?
    requires var row := db.rows[i];
      && row.broker.None? && row.brokerId.None? && row.filled == 0.0 && row.status == ReconciliationRequired && row.quantity >= 0.0
      && snap == FilledSnapshot(row, snap.brokerId, snap.updatedAt.value)
    ensures var tried := SetRow(db, i, db.rows[i].(attempted := true));
      RecordObservation(tried, i, snap) == SetRow(db, i, FilledRow(db.rows[i], snap))
  {
    var row := db.rows[i];
    assert Observe(row.(attempted := true), snap) == Applied(FilledRow(row, snap));
    assert db.rows[i := row.(attempted := true)][i := FilledRow(row, snap)] == db.rows[i := FilledRow(row, snap)];
  }

  /** From the recorded attempt to the stored fill. */
  lemma Acknowledges(s: System, i: nat, snap: Snapshot) returns (t: System)
    requires Reachable(s) && i < |s.db.rows| && s.worker.dispatch == Some(Dispatch(i, Posted)) && snap.updatedAt.Some?
    requires var row := s.db.rows[i];
      && row.broker.None? && row.brokerId.None? && row.filled == 0.0 && row.status == ReconciliationRequired && row.quantity >= 0.0
      && snap == FilledSnapshot(row, snap.brokerId, snap.updatedAt.value)
      && row.id in s.broker.orders && s.broker.orders[row.id].history == [snap]
    ensures Reachable(t)
    ensures t == System(SetRow(s.db, i, FilledRow(s.db.rows[i], snap)), s.broker, s.worker.(dispatch := None))
  {
    ReachableNext(s, RecordAttempt);
    var a := Next(s, RecordAttempt);
    ReachableNext(a, OrderProtocol.Acknowledged(0));
    RecordsFill(s.db, i, snap);
    t := Next(a, OrderProtocol.Acknowledged(0));
  }

  /** One approved row can go all the way to a stored fill. */
  lemma Dispatches(s: System, i: nat, brokerId: nat, at: int) returns (t: System)
    requires Reachable(s) && s.worker.dispatch.None? && i < |s.db.rows| && Free(s.worker, s.db.rows[i])
    requires var row := s.db.rows[i];
      row.status == Approved && row.broker.None? && row.brokerId.None? && row.filled == 0.0 && row.quantity >= 0.0
      && row.id !in s.broker.wire
    ensures Reachable(t) && t.worker == s.worker
    ensures var row := s.db.rows[i];
      var snap := FilledSnapshot(row, brokerId, at);
      t.db == SetRow(s.db, i, FilledRow(row, snap)) && t.broker == Booked(s.broker, row, snap)
  {
    var row := s.db.rows[i];
    var snap := FilledSnapshot(row, brokerId, at);
    var a := Claims(s, i);
    var b := PostsAndFills(a, i, snap);
    t := Acknowledges(b, i, snap);
    assert t.worker == s.worker;
  }

  /** Every admissible first entry can be reserved, posted once, filled and recorded. */
  lemma EntryCanFill(e: Intent, brokerId: nat, at: int) returns (t: System)
    requires e.quantity > 0.0 && 1 <= e.limit <= 2 && e.brokerIdle
    ensures Reachable(t) && t.worker == IDLE
    ensures var row := ReserveEntry(INITIAL.db, e).1.row;
      var snap := FilledSnapshot(row, brokerId, at);
      && t.db == Db([FilledRow(row, snap)], {ClaimOf(e)}, ReserveEntry(INITIAL.db, e).0.budget)
      && t.broker == Booked(INITIAL.broker, row, snap)
      && Position(t.broker, e.symbol) == e.quantity
  {
    StartIsReachable();
    ReachableNext(INITIAL, EnterStep(e));
    var s := Next(INITIAL, EnterStep(e));
    assert s.db.rows == [ReserveEntry(INITIAL.db, e).1.row];
    t := Dispatches(s, 0, brokerId, at);
  }

  lemma OneBuy(row: OrderRow, symbol: Symbol)
    requires row.side.Buy? && row.filled > 0.0
    ensures Inventory([row], symbol) == if row.symbol == symbol then row.filled else 0.0
    ensures OpenBuys([row], row.symbol) == [row] && CountSells([row], row.symbol) == 0
    ensures OwnRows([row], row.cohort) == [row]
  {
    assert Front([row]) == [];
    assert Inventory([row], row.symbol) == row.filled;
    assert [] + [row] == [row];
  }

  ghost predicate ReadyToSell(sell: OrderRow, bought: OrderRow) {
    && sell.side.Sell? && sell.symbol == bought.symbol && sell.quantity == bought.filled && sell.id.ExitId?
    && sell.status == Approved && sell.broker.None? && sell.brokerId.None? && sell.filled == 0.0
  }

  /** And what was bought can be sold again: two rows, both filled, and a flat account. */
  lemma RoundTrip(e: Intent, buyId: nat, sellId: nat, at: int, now: int) returns (t: System)
    requires e.quantity > 0.0 && 1 <= e.limit <= 2 && e.brokerIdle
    ensures Reachable(t) && |t.db.rows| == 2 && AllFinal(t.db.rows)
    ensures t.db.rows[0].filled == e.quantity == t.db.rows[1].filled && t.db.rows[1].side.Sell?
    ensures Position(t.broker, e.symbol) == 0.0
  {
    var s := EntryCanFill(e, buyId, at);
    var row := s.db.rows[0];
    OneBuy(row, e.symbol);
    var a := PassBegun(s, row);
    var b := PassRead(a, row);
    var c := ExitReserved(b, row, now);
    t := Dispatches(c, 1, sellId, at);
  }

  ghost predicate Holding(s: System, row: OrderRow) {
    && s.db.rows == [row] && row.side.Buy? && row.filled > 0.0 && row.status == OrderStatus.Filled
    && (forall id :: id in s.broker.orders ==> !Open(s.broker.orders[id]))
    && row.symbol in s.broker.positions && s.broker.positions[row.symbol] == row.filled
  }

  lemma PassBegun(s: System, row: OrderRow) returns (t: System)
    requires Reachable(s) && s.worker == IDLE && Holding(s, row)
    ensures Reachable(t) && Holding(t, row) && t.broker == s.broker && t.worker == Worker(Some(Pass(row.cohort, [row], None, {row.symbol})), None)
  {
    OneBuy(row, row.symbol);
    ReachableNext(s, BeginPass(row.cohort));
    t := Next(s, BeginPass(row.cohort));
    assert Symbols([row]) == {row.symbol} by { assert [row][0].symbol in Symbols([row]); }
  }

  lemma PassRead(s: System, row: OrderRow) returns (t: System)
    requires Reachable(s) && Holding(s, row) && s.worker == Worker(Some(Pass(row.cohort, [row], None, {row.symbol})), None)
    ensures Reachable(t) && Holding(t, row) && t.broker == s.broker
    ensures t.worker == Worker(Some(Pass(row.cohort, [row], Some(t.broker.positions), {row.symbol})), None)
  {
    ReachableNext(s, ReadPositions);
    t := Next(s, ReadPositions);
  }

  lemma ExitReserved(s: System, row: OrderRow, now: int) returns (t: System)
    requires Reachable(s) && Holding(s, row)
    requires s.worker == Worker(Some(Pass(row.cohort, [row], Some(s.broker.positions), {row.symbol})), None)
    ensures Reachable(t) && t.worker == IDLE && t.broker == s.broker && |t.db.rows| == 2
    ensures t.db.rows[0] == row && ReadyToSell(t.db.rows[1], row)
  {
    OneBuy(row, row.symbol);
    ReachableNext(s, ExitStep(row.symbol, now));
    var a := Next(s, ExitStep(row.symbol, now));
    ReachableNext(a, EndPass);
    t := Next(a, EndPass);
  }
}
