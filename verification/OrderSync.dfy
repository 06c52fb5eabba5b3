/** How one stored row and the broker's true record of the same order are tied together. */
module OrderSync {
  import opened Orders
  import opened SessionStore
  import opened OrderProtocol
  import opened OrderLadder

  /** An honest history: one identity, strictly later timestamps, cumulative fills, and nothing after
      a terminal snapshot. */
  ghost predicate Honest(id: ClientId, o: BrokerOrder) {
    && o.history != []
    && (forall k :: 0 <= k < |o.history| ==> Publishable(id, o.symbol, o.side, o.quantity, o.history[k])
                                             && o.history[k].brokerId == o.history[0].brokerId)
    && (forall j, k :: 0 <= j < k < |o.history| ==>
          && o.history[j].updatedAt.value < o.history[k].updatedAt.value
          && o.history[j].filled <= o.history[k].filled
          && !Terminal(o.history[j].status))
  }

  ghost predicate Recorded(row: OrderRow, o: BrokerOrder, k: int) {
    && 0 <= k < |o.history|
    && row.broker == Some(o.history[k]) && row.filled == o.history[k].filled
    && row.brokerId == Some(o.history[k].brokerId)
    && (row.status == Lifecycle(o.history[k].status)
        || (row.status == CancelPending && !Terminal(o.history[k].status)))
  }

  /** The row repeats one of the broker's snapshots, a cancel mark of the manager's own apart; if it is
      final that snapshot is the broker's last. */
  ghost predicate TrueStatus(row: OrderRow, o: BrokerOrder) {
    && row.broker.Some? && o.history != []
    && var snap := row.broker.value;
    && snap in o.history && row.filled == snap.filled
    && (Reflects(row.status, snap.status)
        || (row.status.CancelPending?
            && snap.status !in {BrokerStatus.Filled, BrokerStatus.Canceled, BrokerStatus.Expired, BrokerStatus.Rejected}))
    && (Final(row.status) ==> snap == Latest(o) && Reflects(row.status, Latest(o).status))
  }

  lemma RecordedIsTrue(row: OrderRow, o: BrokerOrder, k: int)
    requires Honest(row.id, o) && Recorded(row, o, k)
    ensures TrueStatus(row, o)
  {
    var last := |o.history| - 1;
    assert o.history[k] in o.history;
    assert o.history[last] == Latest(o) && (k < last ==> !Terminal(o.history[k].status));
  }

  ghost predicate Unrecorded(row: OrderRow) {
    row.broker.None? && row.brokerId.None? && row.filled == 0.0
    && row.status in {Approved, ReconciliationRequired, OrderStatus.Expired, OrderStatus.Rejected}
  }

  /** The broker's side of one id: posted at most once, and never in two places. */
  ghost predicate Traced(id: ClientId, b: Broker) {
    && b.posts[id] <= 1
    && (id in b.orders || id in b.wire || id in b.refused ==> b.posts[id] == 1)
    && !(id in b.orders && id in b.wire) && !(id in b.orders && id in b.refused)
    && !(id in b.wire && id in b.refused)
  }

  ghost predicate Matches(row: OrderRow, o: BrokerOrder) {
    o.symbol == row.symbol && o.side == row.side && o.quantity == row.quantity && Honest(row.id, o)
  }

  ghost predicate Synced(row: OrderRow, b: Broker, stage: Option<Stage>) {
    && Traced(row.id, b)
    && (row.id in b.orders ==> Matches(row, b.orders[row.id]))
    && (if row.broker.Some? then row.id in b.orders && exists k :: Recorded(row, b.orders[row.id], k)
        else Unrecorded(row))
    && (row.status == Approved ==> b.posts[row.id] == 0)
    && (row.broker.None? && row.status == OrderStatus.Expired ==> b.posts[row.id] == 0)
    && (row.broker.None? && row.status == OrderStatus.Rejected ==> row.id in b.refused)
    && (row.released ==> row.broker.None? && row.status == OrderStatus.Expired)
    && (row.attempted ==> b.posts[row.id] == 1)
    && (stage.Some? && stage.value in {Prepared, Posted, Attempted} ==>
          && row.broker.None? && row.status == ReconciliationRequired
          && b.posts[row.id] == (if stage.value.Prepared? then 0 else 1))
  }

  lemma SyncedDrop(row: OrderRow, b: Broker, stage: Option<Stage>)
    requires Synced(row, b, stage)
    ensures Synced(row, b, None)
    ensures Synced(row, b, Some(Lookup)) && Synced(row, b, Some(Claiming))
  {
  }

  ghost function TrueFill(b: Broker, id: ClientId): real {
    if id in b.orders && b.orders[id].history != [] then Latest(b.orders[id]).filled else 0.0
  }

  /** A final row is settled: nothing can still happen to it at the broker, and its fill is the true one. */
  lemma FinalIsSettled(row: OrderRow, b: Broker, stage: Option<Stage>)
    requires Synced(row, b, stage) && Final(row.status)
    ensures row.id !in b.wire
    ensures row.id in b.orders ==> !Open(b.orders[row.id])
    ensures TrueFill(b, row.id) == row.filled
  {
    if row.broker.Some? {
      var o := b.orders[row.id];
      var k :| Recorded(row, o, k);
      var last := |o.history| - 1;
      assert Publishable(row.id, o.symbol, o.side, o.quantity, o.history[last]);
      assert k == last;
    }
  }

  /** The local fill never runs ahead of the broker. */
  lemma FillIsBehind(row: OrderRow, b: Broker, stage: Option<Stage>)
    requires Synced(row, b, stage) && row.quantity > 0.0
    ensures row.filled <= TrueFill(b, row.id) <= row.quantity
  {
    if row.broker.Some? {
      var o := b.orders[row.id];
      var k :| Recorded(row, o, k);
    }
    if row.id in b.orders {
      var o := b.orders[row.id];
      assert Publishable(row.id, o.symbol, o.side, o.quantity, o.history[|o.history| - 1]);
    }
  }

  ghost function Observed(row: OrderRow, snap: Snapshot): OrderRow {
    match Observe(row, snap) case Applied(after) => after case _ => row
  }

  /** Any published snapshot can be delivered at any time without an error; final rows absorb it. */
  lemma ObserveSynced(row: OrderRow, b: Broker, stage: Option<Stage>, k: nat)
    requires Synced(row, b, stage) && row.id in b.orders && k < |b.orders[row.id].history|
    ensures var snap := b.orders[row.id].history[k];
      && !Observe(row, snap).Mismatch? && !Observe(row, snap).Decreased?
      && Synced(Observed(row, snap), b, None)
      && SameIntent(row, Observed(row, snap))
      && row.filled <= Observed(row, snap).filled <= row.quantity
      && Observed(row, snap).released == row.released
      && (Final(row.status) ==> Observed(row, snap) == row)
  {
    var o := b.orders[row.id];
    var snap := o.history[k];
    assert Publishable(row.id, o.symbol, o.side, o.quantity, snap);
    if row.broker.Some? {
      var j :| Recorded(row, o, j);
      assert Publishable(row.id, o.symbol, o.side, o.quantity, o.history[j]);
      assert o.history[j].brokerId == o.history[0].brokerId;
    }
    if Observe(row, snap).Applied? {
      assert Recorded(Observed(row, snap), o, k);
    }
  }
}
