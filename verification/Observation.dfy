/** Delivering one order's snapshots in any order, with repetitions and cancel marks in between. */
module Observation {
  import opened Orders
  import opened OrderProtocol
  import opened OrderLadder
  import opened OrderSync

  /** `MarkCancel` is the cancel request's own write, which the manager makes only on an active row
      that the broker has acknowledged. */
  datatype Delivery = Deliver(k: nat) | MarkCancel

  function MarkedForCancel(row: OrderRow): OrderRow {
    if !Final(row.status) && row.brokerId.Some? then row.(status := CancelPending) else row
  }

  /** None when a delivery raises. */
  function DeliverAll(row: OrderRow, o: BrokerOrder, ds: seq<Delivery>): Option<OrderRow>
    requires forall d :: d in ds && d.Deliver? ==> d.k < |o.history|
  {
    if ds == [] then Some(row)
    else
      match DeliverAll(row, o, ds[..|ds| - 1])
      case None => None
      case Some(before) =>
        match ds[|ds| - 1]
        case MarkCancel => Some(MarkedForCancel(before))
        case Deliver(k) =>
          match Observe(before, o.history[k])
          case Applied(after) => Some(after)
          case Ignored => Some(before)
          case _ => None
  }

  /** Index of the newest snapshot delivered, or -1. */
  function Newest(ds: seq<Delivery>): int {
    if ds == [] then -1
    else
      var before := Newest(ds[..|ds| - 1]);
      match ds[|ds| - 1]
      case MarkCancel => before
      case Deliver(k) => if k > before then k else before
  }

  lemma DeliverOnto(row: OrderRow, o: BrokerOrder, newest: int, k: nat)
    requires Honest(row.id, o) && k < |o.history| && -1 <= newest < |o.history|
    requires o.symbol == row.symbol && o.side == row.side && o.quantity == row.quantity
    requires if newest < 0 then Unrecorded(row) && !Final(row.status) else Recorded(row, o, newest)
    ensures var outcome := Observe(row, o.history[k]);
      if k < newest then outcome == Ignored
      else outcome.Applied? && Recorded(outcome.row, o, k) && SameIntent(row, outcome.row)
           && outcome.row.status == Lifecycle(o.history[k].status)
           && outcome.row.attempted == row.attempted && outcome.row.released == row.released
  {
    assert Publishable(row.id, o.symbol, o.side, o.quantity, o.history[k]);
    if newest >= 0 {
      assert Publishable(row.id, o.symbol, o.side, o.quantity, o.history[newest]);
      assert o.history[newest].brokerId == o.history[0].brokerId == o.history[k].brokerId;
    }
  }

  /** Observation converges: no delivery raises, and what is stored is exactly the newest snapshot
      delivered, whatever the order, the repetitions and the cancel marks. */
  lemma {:induction false} ObservationConverges(row: OrderRow, o: BrokerOrder, ds: seq<Delivery>)
    requires Matches(row, o) && Unrecorded(row) && !Final(row.status)
    requires forall d :: d in ds && d.Deliver? ==> d.k < |o.history|
    ensures DeliverAll(row, o, ds).Some?
    ensures -1 <= Newest(ds) < |o.history|
    ensures var stored := DeliverAll(row, o, ds).value;
      if Newest(ds) < 0 then stored == row
      else
        var snap := o.history[Newest(ds)];
        && stored == row.(brokerId := Some(snap.brokerId), filled := snap.filled,
                          broker := Some(snap), status := stored.status)
        && (stored.status == Lifecycle(snap.status) || (stored.status == CancelPending && MarkCancel in ds))
        && (Final(stored.status) <==> Terminal(snap.status))
  {
    if ds != [] {
      var front, d := ds[..|ds| - 1], ds[|ds| - 1];
      ObservationConverges(row, o, front);
      var before := DeliverAll(row, o, front).value;
      if d.Deliver? {
        assert d in ds;
        if Newest(front) >= 0 { assert Recorded(before, o, Newest(front)); }
        DeliverOnto(before, o, Newest(front), d.k);
      }
    }
  }

  /** Two delivery orders with the same newest snapshot store rows that agree in everything but perhaps
      a pending cancel mark, and so also in being final; without marks, or once the newest snapshot is
      terminal, they store the same row. */
  lemma DeliveryOrderIsIrrelevant(row: OrderRow, o: BrokerOrder, ds: seq<Delivery>, es: seq<Delivery>)
    requires Matches(row, o) && Unrecorded(row) && !Final(row.status)
    requires forall d :: (d in ds || d in es) && d.Deliver? ==> d.k < |o.history|
    requires Newest(ds) == Newest(es)
    ensures DeliverAll(row, o, ds).Some? && DeliverAll(row, o, es).Some?
    ensures var a, b := DeliverAll(row, o, ds).value, DeliverAll(row, o, es).value;
      && a == b.(status := a.status) && (Final(a.status) <==> Final(b.status))
      && ((MarkCancel !in ds && MarkCancel !in es) || Final(a.status) ==> a == b)
  {
    ObservationConverges(row, o, ds);
    ObservationConverges(row, o, es);
  }

  // ---- Snapshots of any provenance ----

  /** Receiving snapshots that need not come from one honest history; None when one raises. */
  function Receive(row: OrderRow, snaps: seq<Snapshot>): Option<OrderRow> {
    if snaps == [] then Some(row)
    else
      match Receive(row, snaps[..|snaps| - 1])
      case None => None
      case Some(before) =>
        match Observe(before, snaps[|snaps| - 1])
        case Applied(after) => Some(after)
        case Ignored => Some(before)
        case _ => None
  }

  ghost predicate IsOf(row: OrderRow, snap: Snapshot) {
    && snap.clientId == row.id && snap.symbol == row.symbol && snap.side == row.side
    && 0.0 <= snap.filled <= row.quantity
    && (row.brokerId.Some? ==> snap.brokerId == row.brokerId.value)
  }

  ghost predicate StoredFrom(row: OrderRow, snap: Snapshot) {
    && row.broker == Some(snap) && row.filled == snap.filled && row.brokerId == Some(snap.brokerId)
    && Reflects(row.status, snap.status)
  }

  /** Whatever the broker sends, as long as nothing raises: every snapshot was of this order, the intent
      stands, the fill never falls and never passes the quantity, the row holds the statuses of one of the
      snapshots, and a final row became active again only by a larger fill. */
  lemma {:induction false} ReceivingIsMonotone(row: OrderRow, snaps: seq<Snapshot>)
    requires 0.0 <= row.filled <= row.quantity && Receive(row, snaps).Some?
    ensures forall snap :: snap in snaps ==> IsOf(row, snap)
    ensures var after := Receive(row, snaps).value;
      && SameIntent(row, after) && after.attempted == row.attempted && after.released == row.released
      && (row.brokerId.Some? ==> after.brokerId == row.brokerId)
      && row.filled <= after.filled <= row.quantity
      && (after == row || exists snap :: snap in snaps && StoredFrom(after, snap))
      && (Final(row.status) && !Final(after.status) ==> row.filled < after.filled)
  {
    if snaps != [] {
      var front, last := snaps[..|snaps| - 1], snaps[|snaps| - 1];
      ReceivingIsMonotone(row, front);
      var before := Receive(row, front).value;
      assert snaps == front + [last];
      if Observe(before, last).Applied? { assert last in snaps && StoredFrom(Receive(row, snaps).value, last); }
    }
  }

  ghost predicate OutOfDate(row: OrderRow, snap: Snapshot) {
    row.broker.Some? && row.broker.value.updatedAt.Some? && snap.updatedAt.Some?
    && snap.updatedAt.value < row.broker.value.updatedAt.value
  }

  /** A snapshot of the order raises exactly when its fill is lower although it is not out of date, unless
      the row is final and the snapshot is not; and a final row becomes active exactly when a current
      snapshot reports a larger fill and an order still working. */
  lemma ObserveFinal(row: OrderRow, snap: Snapshot)
    requires IsOf(row, snap)
    ensures var outcome := Observe(row, snap);
      && (outcome.Mismatch? || outcome.Decreased?
          <==> snap.filled < row.filled && !OutOfDate(row, snap) && (Final(row.status) ==> Terminal(snap.status)))
      && (Final(row.status) ==>
            (outcome.Applied? && !Final(outcome.row.status)
             <==> row.filled < snap.filled && !OutOfDate(row, snap) && !Terminal(snap.status)))
  {
  }
}
