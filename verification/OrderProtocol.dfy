/** The order manager, its durable store and the remote broker as one state machine.

    Every database transaction and every broker event is one step. A worker keeps only two things
    in memory: the supervision pass it is in and the dispatch it is in. `Crash` may happen between any
    two steps and forgets both. What the worker read from the broker before a transaction is only a
    memory: the broker may move between the read and the commit. POSTs travel on a wire that the broker drains whenever it likes. */
module OrderProtocol {
  import opened Orders
  import opened SessionStore

  /** Every snapshot the broker has ever published for one order, oldest first. */
  datatype BrokerOrder = BrokerOrder(symbol: Symbol, side: Side, quantity: real, history: seq<Snapshot>)

  datatype Broker = Broker(
    orders: map<ClientId, BrokerOrder>, positions: map<Symbol, real>,
    wire: set<ClientId>, refused: set<ClientId>, posts: multiset<ClientId>)

  datatype Stage = Lookup | Claiming | Prepared | Posted | Attempted

  datatype Dispatch = Dispatch(row: nat, stage: Stage)

  /** What supervision read before its exit loop: this cohort's rows, the broker's positions, and the
      symbols the loop has not reached. */
  datatype Pass = Pass(cohort: Cohort, own: seq<OrderRow>, positions: Option<map<Symbol, real>>, todo: set<Symbol>)

  datatype Worker = Worker(pass: Option<Pass>, dispatch: Option<Dispatch>)

  datatype System = System(db: Db, broker: Broker, worker: Worker)

  const IDLE := Worker(None, None)

  const INITIAL := System(Db([], {}, EMPTY_BUDGET), Broker(map[], map[], {}, {}, multiset{}), IDLE)

  datatype Action =
    // worker, outside a dispatch
    | EnterStep(intent: Intent)
    | ObserveStep(i: nat, k: nat)
    | ExpireStep(i: nat)
    | CancelStep(i: nat)
    | BeginPass(cohort: Cohort)
    | ReadPositions
    | ExitStep(symbol: Symbol, now: int)
    | EndPass
    | StartDispatch(i: nat)
    // worker, inside a dispatch
    | Found(k: nat)
    | NotFound
    | ClaimStep
    | RevalidationFailed
    | PostStep
    | RecordAttempt
    | Acknowledged(k: nat)
    | RejectedByBroker
    | Abandon
    // other writers of the session budget, at any time
    | ScheduleStep(request: nat)
    | ImportStep(bought: set<ClientId>, brokerIds: set<nat>)
    // environment
    | Crash
    | BrokerAccepts(i: nat, first: Snapshot)
    | BrokerRefuses(id: ClientId)
    | WireLoses(id: ClientId)
    | BrokerMoves(id: ClientId, next: Snapshot)

  function Position(b: Broker, symbol: Symbol): real {
    if symbol in b.positions then b.positions[symbol] else 0.0
  }

  function Delta(side: Side, quantity: real): real { if side.Buy? then quantity else -quantity }

  function Latest(o: BrokerOrder): Snapshot
    requires o.history != []
  {
    o.history[|o.history| - 1]
  }

  predicate Open(o: BrokerOrder) { o.history != [] && !Terminal(Latest(o).status) }

  /** A snapshot this order could publish: its own identity and a fill within its quantity. */
  predicate Publishable(id: ClientId, symbol: Symbol, side: Side, quantity: real, snap: Snapshot) {
    && snap.clientId == id && snap.symbol == symbol && snap.side == side
    && 0.0 <= snap.filled <= quantity && snap.updatedAt.Some?
  }

  function Publish(b: Broker, id: ClientId, o: BrokerOrder, gained: real): Broker {
    b.(orders := b.orders[id := o],
       positions := b.positions[o.symbol := Position(b, o.symbol) + Delta(o.side, gained)])
  }

  /** A pass owns the rows of the symbols it still has to handle: nothing else in the one leased
      worker touches them between the read and the exit transaction. */
  predicate Free(w: Worker, row: OrderRow) {
    w.pass.Some? ==> !(row.cohort == w.pass.value.cohort && row.symbol in w.pass.value.todo)
  }

  function Symbols(rows: seq<OrderRow>): set<Symbol> { set i | 0 <= i < |rows| :: rows[i].symbol }

  predicate At(s: System, stage: Stage) {
    && s.worker.dispatch.Some? && s.worker.dispatch.value.stage == stage
    && s.worker.dispatch.value.row < |s.db.rows|
  }

  function Current(s: System): OrderRow
    requires s.worker.dispatch.Some? && s.worker.dispatch.value.row < |s.db.rows|
  {
    s.db.rows[s.worker.dispatch.value.row]
  }

  predicate Snapshotted(s: System, i: nat, k: nat) {
    i < |s.db.rows| && s.db.rows[i].id in s.broker.orders && k < |s.broker.orders[s.db.rows[i].id].history|
  }

  predicate ExitReady(s: System, symbol: Symbol) {
    && s.worker.pass.Some? && s.worker.dispatch.None?
    && var p := s.worker.pass.value;
    && symbol in p.todo && p.positions.Some?
    && OpenBuys(p.own, symbol) != []
    && Inventory(p.own, symbol) > 0.0
    && symbol in p.positions.value && p.positions.value[symbol] == Inventory(p.own, symbol)
  }

  predicate Enabled(s: System, a: Action) {
    var w := s.worker;
    match a
    case EnterStep(e) =>
      w == IDLE && e.quantity > 0.0 && 1 <= e.limit <= 2
    case ObserveStep(i, k) => w.dispatch.None? && Snapshotted(s, i, k) && Free(w, s.db.rows[i])
    case ExpireStep(i) => w.dispatch.None? && i < |s.db.rows| && s.db.rows[i].side.Buy? && Free(w, s.db.rows[i])
    case CancelStep(i) =>
      w.dispatch.None? && i < |s.db.rows| && !Final(s.db.rows[i].status) && s.db.rows[i].brokerId.Some?
      && Free(w, s.db.rows[i])
    case BeginPass(_) => w == IDLE
    case ReadPositions => w.pass.Some? && w.pass.value.positions.None? && w.dispatch.None?
    case ExitStep(symbol, _) => ExitReady(s, symbol)
    case EndPass => w.pass.Some? && w.dispatch.None?
    case StartDispatch(i) => w.dispatch.None? && i < |s.db.rows| && Free(w, s.db.rows[i])
    case Found(k) => At(s, Lookup) && Snapshotted(s, w.dispatch.value.row, k)
    case NotFound => At(s, Lookup)
    case ClaimStep => At(s, Claiming)
    case RevalidationFailed => At(s, Prepared)
    case PostStep => At(s, Prepared)
    case RecordAttempt => At(s, Posted)
    case Acknowledged(k) => At(s, Attempted) && Snapshotted(s, w.dispatch.value.row, k)
    case RejectedByBroker => At(s, Attempted) && Current(s).id in s.broker.refused
    case Abandon => w.dispatch.Some?
    case ScheduleStep(_) => true
    case ImportStep(_, _) => true
    case Crash => true
    case BrokerAccepts(i, first) =>
      i < |s.db.rows| && s.db.rows[i].id in s.broker.wire
      && var row := s.db.rows[i]; Publishable(row.id, row.symbol, row.side, row.quantity, first)
    case BrokerRefuses(id) => id in s.broker.wire
    case WireLoses(id) => id in s.broker.wire
    case BrokerMoves(id, next) =>
      id in s.broker.orders && Open(s.broker.orders[id])
      && var o := s.broker.orders[id];
         Publishable(id, o.symbol, o.side, o.quantity, next)
         && next.brokerId == Latest(o).brokerId
         && Latest(o).filled <= next.filled
         && Latest(o).updatedAt.Some? && Latest(o).updatedAt.value < next.updatedAt.value
  }

  function Staged(s: System, stage: Stage): System
    requires s.worker.dispatch.Some?
  {
    s.(worker := s.worker.(dispatch := Some(s.worker.dispatch.value.(stage := stage))))
  }

  function Done(s: System): System { s.(worker := s.worker.(dispatch := None)) }

  function Expire(db: Db, i: nat, claimed: bool): Db
    requires i < |db.rows|
  {
    match ExpireUnsent(db, i, claimed)
    case Released(after) => after
    case _ => db
  }

  function Import(db: Db, bought: set<ClientId>, brokerIds: set<nat>): Db {
    match ImportHistory(db, bought, brokerIds)
    case Some(after) => after
    case None => db
  }

  function Next(s: System, a: Action): System
    requires Enabled(s, a)
  {
    var w := s.worker;
    var db := s.db;
    var b := s.broker;
    match a
    case EnterStep(e) => s.(db := ReserveEntry(db, e).0)
    case ScheduleStep(request) => s.(db := ReserveSchedule(db, request))
    case ImportStep(bought, brokerIds) => s.(db := Import(db, bought, brokerIds))
    case ObserveStep(i, k) => s.(db := RecordObservation(db, i, b.orders[db.rows[i].id].history[k]))
    case ExpireStep(i) => s.(db := Expire(db, i, false))
    case CancelStep(i) => s.(db := SetRow(db, i, db.rows[i].(status := CancelPending)))
    case BeginPass(c) =>
      var own := OwnRows(db.rows, c);
      s.(worker := w.(pass := Some(Pass(c, own, None, Symbols(own)))))
    case ReadPositions => s.(worker := w.(pass := Some(w.pass.value.(positions := Some(b.positions)))))
    case ExitStep(symbol, now) =>
      var p := w.pass.value;
      s.(db := ReserveExit(db, p.own, p.cohort, symbol, now),
         worker := w.(pass := Some(p.(todo := p.todo - {symbol}))))
    case EndPass => s.(worker := w.(pass := None))
    case StartDispatch(i) => s.(worker := w.(dispatch := Some(Dispatch(i, Lookup))))
    case Found(k) =>
      var i := w.dispatch.value.row;
      Done(s).(db := RecordObservation(db, i, b.orders[db.rows[i].id].history[k]))
    case NotFound => Staged(s, Claiming)
    case ClaimStep =>
      var (after, won) := ClaimForDispatch(db, w.dispatch.value.row);
      (if won then Staged(s, Prepared) else Done(s)).(db := after)
    case RevalidationFailed =>
      var i := w.dispatch.value.row;
      Done(s).(db := if Current(s).side.Buy? then Expire(db, i, true) else ExpireExit(db, i))
    case PostStep =>
      var id := Current(s).id;
      Staged(s, Posted).(broker := b.(wire := b.wire + {id}, posts := b.posts + multiset{id}))
    case RecordAttempt =>
      Staged(s, Attempted).(db := SetRow(db, w.dispatch.value.row, Current(s).(attempted := true)))
    case Acknowledged(k) =>
      var i := w.dispatch.value.row;
      Done(s).(db := RecordObservation(db, i, b.orders[db.rows[i].id].history[k]))
    case RejectedByBroker =>
      Done(s).(db := SetRow(db, w.dispatch.value.row, Current(s).(status := OrderStatus.Rejected)))
    case Abandon => Done(s)
    case Crash => s.(worker := IDLE)
    case BrokerAccepts(i, first) =>
      var row := db.rows[i];
      s.(broker := Publish(b.(wire := b.wire - {row.id}), row.id,
                           BrokerOrder(row.symbol, row.side, row.quantity, [first]), first.filled))
    case BrokerRefuses(id) => s.(broker := b.(wire := b.wire - {id}, refused := b.refused + {id}))
    case WireLoses(id) => s.(broker := b.(wire := b.wire - {id}))
    case BrokerMoves(id, next) =>
      var o := b.orders[id];
      s.(broker := Publish(b, id, o.(history := o.history + [next]), next.filled - Latest(o).filled))
  }

  /** The state after a sequence of steps from the empty store, if each was enabled in turn. */
  ghost function After(steps: seq<Action>): Option<System> {
    if steps == [] then Some(INITIAL)
    else
      var before := After(steps[..|steps| - 1]);
      var a := steps[|steps| - 1];
      if before.Some? && Enabled(before.value, a) then Some(Next(before.value, a)) else None
  }

  ghost predicate Reachable(s: System) { exists steps :: After(steps) == Some(s) }
}
