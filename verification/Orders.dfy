/** Durable order rows, broker snapshots, and the rule that folds one snapshot into one row. */
module Orders {

  datatype Option<+T> = None | Some(value: T)

  type Symbol = string
  type Cohort = string

  datatype Side = Buy | Sell

  datatype TradeClass = EquipmentTest | NewsStrategy | Unclassified

  /** A claim key is spent once for ever. The equipment claim belongs to the account's session,
      not to a cohort, so every cohort of the session competes for it. */
  datatype Claim = EquipmentClaim | ClusterClaim(cohort: Cohort, cluster: string)

  /** Client order ids are hashes of these values; the hash is taken to be injective. */
  datatype ClientId =
    | EntryId(claim: Claim)
    | ExitId(cohort: Cohort, entry: ClientId, sequence: nat)
    | ForeignId(name: string)  // an order of the account that this system did not place

  datatype BrokerStatus =
    | New | Accepted | PendingNew | PartiallyFilled | Filled | PendingCancel
    | Canceled | Expired | Rejected
    | Unmapped  // done_for_day, replaced, pending_replace, stopped, suspended, calculated, held, ...

  datatype OrderStatus =
    | Created | RiskRejected | Approved | Submitting | Acknowledged | PartiallyFilled | Filled
    | CancelPending | Canceled | Rejected | Expired | ReconciliationRequired

  datatype Snapshot = Snapshot(
    brokerId: nat, clientId: ClientId, symbol: Symbol, side: Side, status: BrokerStatus,
    filled: real, price: Option<real>, updatedAt: Option<int>, filledAt: Option<int>)

  /** One row of the orders table joined with the parts of its link payload that steer the manager. */
  datatype OrderRow = OrderRow(
    id: ClientId, cohort: Cohort, symbol: Symbol, side: Side, quantity: real,
    filled: real, status: OrderStatus, brokerId: Option<nat>,
    tradeClass: TradeClass, createdAt: int, exitAt: int,
    broker: Option<Snapshot>, attempted: bool, released: bool)

  predicate Final(status: OrderStatus) {
    status in {OrderStatus.Filled, OrderStatus.Canceled, OrderStatus.Rejected, OrderStatus.Expired, RiskRejected}
  }

  /** The statuses after which the broker never changes an order again. */
  predicate Terminal(status: BrokerStatus) {
    status in {BrokerStatus.Filled, BrokerStatus.Canceled, BrokerStatus.Expired, BrokerStatus.Rejected}
  }

  function Lifecycle(status: BrokerStatus): (r: OrderStatus)
    ensures Final(r) <==> Terminal(status)
    ensures Reflects(r, status)
  {
    match status
    case New => Acknowledged
    case Accepted => Acknowledged
    case PendingNew => Submitting
    case PartiallyFilled => OrderStatus.PartiallyFilled
    case Filled => OrderStatus.Filled
    case PendingCancel => CancelPending
    case Canceled => OrderStatus.Canceled
    case Expired => OrderStatus.Expired
    case Rejected => OrderStatus.Rejected
    case Unmapped => ReconciliationRequired
  }

  /** Which broker statuses a status taken over from the broker can stand for. */
  predicate Reflects(stored: OrderStatus, reported: BrokerStatus) {
    && (stored.Filled? <==> reported.Filled?) && (stored.PartiallyFilled? <==> reported.PartiallyFilled?)
    && (stored.Canceled? <==> reported.Canceled?) && (stored.CancelPending? <==> reported.PendingCancel?)
    && (stored.Expired? <==> reported.Expired?) && (stored.Rejected? <==> reported.Rejected?)
    && (stored.Submitting? <==> reported.PendingNew?) && (stored.Acknowledged? <==> reported.New? || reported.Accepted?)
    && (stored.ReconciliationRequired? <==> reported.Unmapped?)
  }

  /** What one delivery of a snapshot does to a row: the two error outcomes are raised exceptions. */
  datatype Observation = Mismatch | Ignored | Decreased | Applied(row: OrderRow)

  predicate Identified(row: OrderRow, snap: Snapshot) {
    && snap.clientId == row.id
    && snap.symbol == row.symbol
    && snap.side == row.side
    && (row.brokerId.None? || row.brokerId.value == snap.brokerId)
    && 0.0 <= snap.filled <= row.quantity
  }

  predicate Older(snap: Snapshot, than: Option<Snapshot>) {
    than.Some? && than.value.updatedAt.Some? && snap.updatedAt.Some?
    && snap.updatedAt.value < than.value.updatedAt.value
  }

  predicate Stale(row: OrderRow, snap: Snapshot) {
    || Older(snap, row.broker)
    || (Final(row.status) && !Final(Lifecycle(snap.status)) && snap.filled <= row.filled)
  }

  function Observe(row: OrderRow, snap: Snapshot): Observation {
    if !Identified(row, snap) then Mismatch
    else if Stale(row, snap) then Ignored
    else if snap.filled < row.filled then Decreased
    else Applied(row.(brokerId := Some(snap.brokerId), filled := snap.filled,
                      status := Lifecycle(snap.status), broker := Some(snap)))
  }

  // ---- Inventories over a list of rows ----

  function Signed(row: OrderRow): real { if row.side.Buy? then row.filled else -row.filled }

  function Front(rows: seq<OrderRow>): seq<OrderRow>
    requires rows != []
  {
    rows[..|rows| - 1]
  }

  function Last(rows: seq<OrderRow>): OrderRow
    requires rows != []
  {
    rows[|rows| - 1]
  }

  function Inventory(rows: seq<OrderRow>, symbol: Symbol): real {
    if rows == [] then 0.0
    else Inventory(Front(rows), symbol) + if Last(rows).symbol == symbol then Signed(Last(rows)) else 0.0
  }

  function OwnRows(rows: seq<OrderRow>, cohort: Cohort): seq<OrderRow> {
    if rows == [] then []
    else OwnRows(Front(rows), cohort) + if Last(rows).cohort == cohort then [Last(rows)] else []
  }

  function Lane(rows: seq<OrderRow>, symbol: Symbol): seq<OrderRow> {
    if rows == [] then []
    else Lane(Front(rows), symbol) + if Last(rows).symbol == symbol then [Last(rows)] else []
  }

  function CountSells(rows: seq<OrderRow>, symbol: Symbol): nat {
    if rows == [] then 0
    else CountSells(Front(rows), symbol) + if Last(rows).symbol == symbol && Last(rows).side.Sell? then 1 else 0
  }

  /** The exit loop's list: buys with a fill since the running quantity last returned to zero. */
  function OpenBuys(rows: seq<OrderRow>, symbol: Symbol): seq<OrderRow> {
    if rows == [] then []
    else
      var row := Last(rows);
      var before := OpenBuys(Front(rows), symbol);
      if row.symbol != symbol then before
      else if Inventory(rows, symbol) == 0.0 then []
      else if row.side.Buy? && row.filled > 0.0 then before + [row]
      else before
  }

  predicate AllFinal(rows: seq<OrderRow>) {
    forall i :: 0 <= i < |rows| ==> Final(rows[i].status)
  }

  lemma FrontAppend(rows: seq<OrderRow>, row: OrderRow)
    ensures Front(rows + [row]) == rows && Last(rows + [row]) == row
  {
    assert (rows + [row])[..|rows|] == rows;
  }

  lemma {:induction false} LaneDetermines(rows: seq<OrderRow>, symbol: Symbol)
    ensures Inventory(rows, symbol) == Inventory(Lane(rows, symbol), symbol)
    ensures CountSells(rows, symbol) == CountSells(Lane(rows, symbol), symbol)
    ensures OpenBuys(rows, symbol) == OpenBuys(Lane(rows, symbol), symbol)
  {
    if rows != [] {
      LaneDetermines(Front(rows), symbol);
      if Last(rows).symbol == symbol {
        FrontAppend(Lane(Front(rows), symbol), Last(rows));
        assert Lane(rows, symbol) == Lane(Front(rows), symbol) + [Last(rows)];
      } else {
        assert Lane(rows, symbol) == Lane(Front(rows), symbol);
      }
    }
  }

  function FilledTotal(rows: seq<OrderRow>): real {
    if rows == [] then 0.0 else FilledTotal(Front(rows)) + Last(rows).filled
  }

  /** Selling never adds to the list, so the listed buys always cover the inventory. */
  lemma {:induction false} OpenBuysCoverInventory(rows: seq<OrderRow>, symbol: Symbol)
    requires forall i :: 0 <= i < |rows| ==> rows[i].filled >= 0.0
    ensures Inventory(rows, symbol) <= FilledTotal(OpenBuys(rows, symbol))
    ensures Inventory(rows, symbol) > 0.0 ==> OpenBuys(rows, symbol) != []
  {
    if rows != [] {
      OpenBuysCoverInventory(Front(rows), symbol);
      FrontAppend(OpenBuys(Front(rows), symbol), Last(rows));
    }
  }
}
