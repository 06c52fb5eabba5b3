/** The rows one practice session shares: orders, claims and the entry budget, with one function
    per database transaction and a class that performs the same transactions in place. */
module SessionStore {
  import opened Orders

  datatype Budget = Budget(
    total: int, news: int, equipment: Option<ClientId>,
    scheduled: bool, scheduledRequest: Option<nat>, external: set<ClientId>)

  const EMPTY_BUDGET := Budget(0, 0, None, false, None, {})

  datatype Db = Db(rows: seq<OrderRow>, claims: set<Claim>, budget: Budget)

  datatype EntryKind = Calibration | Strategy

  /** An entry that passed every gate before the reservation transaction. `request` is the scheduled
      operator request this manager acts for, `limit` the smaller of the two session entry limits,
      `brokerIdle` what an earlier read of the broker's positions and open orders found. */
  datatype Intent = Intent(
    cohort: Cohort, kind: EntryKind, cluster: string, symbol: Symbol, quantity: real,
    now: int, exitAt: int, limit: int, request: Option<nat>, brokerIdle: bool)

  datatype EntryResult = Refused(reason: string) | Duplicate(id: ClientId) | Reserved(row: OrderRow)

  function ClaimOf(e: Intent): Claim {
    if e.kind.Calibration? then EquipmentClaim else ClusterClaim(e.cohort, e.cluster)
  }

  function ClassOf(kind: EntryKind): TradeClass {
    if kind.Calibration? then EquipmentTest else NewsStrategy
  }

  function NewRow(id: ClientId, cohort: Cohort, symbol: Symbol, side: Side, quantity: real,
                  tradeClass: TradeClass, createdAt: int, exitAt: int): OrderRow
  {
    OrderRow(id, cohort, symbol, side, quantity, 0.0, Approved, None, tradeClass, createdAt, exitAt, None, false, false)
  }

  predicate Flat(rows: seq<OrderRow>) {
    forall i :: 0 <= i < |rows| ==> Inventory(rows, rows[i].symbol) == 0.0
  }

  predicate OwnsSchedule(b: Budget, e: Intent) {
    b.scheduled && e.request.Some? && b.scheduledRequest == e.request
  }

  function ReserveEntry(db: Db, e: Intent): (Db, EntryResult) {
    var b := db.budget;
    var owns := OwnsSchedule(b, e);
    var id := EntryId(ClaimOf(e));
    if b.scheduled && !owns then (db, Refused("SCHEDULED_ENTRY_RESERVED"))
    else if e.kind.Calibration? && b.equipment.Some? then (db, Duplicate(b.equipment.value))
    else if e.kind.Strategy? && b.news >= 1 then (db, Refused("NEWS_ENTRY_LIMIT"))
    else if ClaimOf(e) in db.claims then (db, Duplicate(id))
    else if !AllFinal(db.rows) || !Flat(db.rows) || !e.brokerIdle then (db, Refused("POSITION_OR_ORDER_RESERVED"))
    else if b.total - (if owns then 1 else 0) >= e.limit then (db, Refused("SESSION_ENTRY_LIMIT"))
    else
      var row := NewRow(id, e.cohort, e.symbol, Buy, e.quantity, ClassOf(e.kind), e.now, e.exitAt);
      var spent := b.(total := if owns then b.total else b.total + 1, scheduled := false);
      var charged := if e.kind.Strategy? then spent.(news := b.news + 1) else spent.(equipment := Some(id));
      (Db(db.rows + [row], db.claims + {ClaimOf(e)}, charged), Reserved(row))
  }

  /** A scheduled operator session takes its entry out of the budget before any order exists. */
  function ReserveSchedule(db: Db, request: nat): Db {
    var b := db.budget;
    if b.total >= 2 || b.equipment.Some? || b.scheduledRequest.Some? then db
    else db.(budget := b.(total := b.total + 1, scheduled := true, scheduledRequest := Some(request)))
  }

  predicate Settled(row: OrderRow) {
    row.status in {OrderStatus.Filled, OrderStatus.Canceled, OrderStatus.Expired, OrderStatus.Rejected}
  }

  function LocalIds(rows: seq<OrderRow>): set<ClientId> { set i | 0 <= i < |rows| :: rows[i].id }

  /** Nothing local is unresolved, and the history omits no order the store knows. */
  predicate Importable(rows: seq<OrderRow>, brokerIds: set<nat>) {
    forall i :: 0 <= i < |rows| ==> Settled(rows[i]) && (rows[i].brokerId.Some? ==> rows[i].brokerId.value in brokerIds)
  }

  /** Importing the account's broker history charges the day's buys that this store did not place:
      `bought` are the client ids of those buys, `brokerIds` the orders of the whole history. None
      where the import raises. */
  function ImportHistory(db: Db, bought: set<ClientId>, brokerIds: set<nat>): Option<Db> {
    var b := db.budget;
    var external := bought - LocalIds(db.rows);
    if !Importable(db.rows, brokerIds) || !(b.external <= external) then None
    else Some(db.(budget := b.(total := b.total + |external - b.external|, external := external)))
  }

  ghost predicate Foreign(rows: seq<OrderRow>, bought: set<ClientId>, id: ClientId) {
    id in bought && forall i :: 0 <= i < |rows| ==> rows[i].id != id
  }

  lemma LocalIdsAre(rows: seq<OrderRow>, id: ClientId)
    ensures id in LocalIds(rows) <==> exists i :: 0 <= i < |rows| && rows[i].id == id
  {
  }

  /** An import is accepted exactly when every local order is settled and in the history and no buy
      counted before is gone; then it counts exactly the buys that no local row has, and the total
      grows by one for each that is new. */
  lemma ImportCounts(db: Db, bought: set<ClientId>, brokerIds: set<nat>)
    ensures ImportHistory(db, bought, brokerIds).Some? <==>
              && (forall i :: 0 <= i < |db.rows| ==>
                    && Final(db.rows[i].status) && !db.rows[i].status.RiskRejected?
                    && (db.rows[i].brokerId.Some? ==> db.rows[i].brokerId.value in brokerIds))
              && (forall id :: id in db.budget.external ==> Foreign(db.rows, bought, id))
    ensures ImportHistory(db, bought, brokerIds).Some? ==>
              var after := ImportHistory(db, bought, brokerIds).value;
              && after == db.(budget := db.budget.(total := after.budget.total, external := after.budget.external))
              && (forall id :: id in after.budget.external <==> Foreign(db.rows, bought, id))
              && after.budget.total - db.budget.total == |set id | id in after.budget.external && id !in db.budget.external|
  {
    forall id ensures id in bought - LocalIds(db.rows) <==> Foreign(db.rows, bought, id) { LocalIdsAre(db.rows, id); }
    if ImportHistory(db, bought, brokerIds).Some? {
      var after := ImportHistory(db, bought, brokerIds).value;
      assert after.budget.external - db.budget.external
          == set id | id in after.budget.external && id !in db.budget.external;
    }
  }

  /** The store's own buys are never charged a second time. */
  lemma OwnBuysAreNotCharged(db: Db, bought: set<ClientId>, brokerIds: set<nat>)
    requires db.budget.external == {} && forall id :: id in bought ==> exists i :: 0 <= i < |db.rows| && db.rows[i].id == id
    ensures ImportHistory(db, bought, brokerIds).Some? ==> ImportHistory(db, bought, brokerIds).value == db
  {
    forall id ensures id !in bought - LocalIds(db.rows) { LocalIdsAre(db.rows, id); }
    assert bought - LocalIds(db.rows) == {};
  }

  /** Importing the same history again changes nothing. */
  lemma ImportAgain(db: Db, bought: set<ClientId>, brokerIds: set<nat>)
    requires ImportHistory(db, bought, brokerIds).Some?
    ensures var after := ImportHistory(db, bought, brokerIds).value; ImportHistory(after, bought, brokerIds) == Some(after)
  {
    var external := bought - LocalIds(db.rows);
    assert external - external == {};
  }

  function SetRow(db: Db, i: nat, row: OrderRow): Db
    requires i < |db.rows|
  {
    db.(rows := db.rows[i := row])
  }

  datatype Expiry = Untouched | CounterMismatch | Released(db: Db)

  predicate Releasable(row: OrderRow, claimed: bool) {
    && row.status == (if claimed then ReconciliationRequired else Approved)
    && row.brokerId.None? && row.filled == 0.0 && !row.attempted && !row.released
  }

  /** `claimed` is true only inside the dispatch that won the claim. */
  function ExpireUnsent(db: Db, i: nat, claimed: bool): Expiry
    requires i < |db.rows|
  {
    var row := db.rows[i];
    var b := db.budget;
    var news := row.tradeClass.NewsStrategy?;
    if !Releasable(row, claimed) then Untouched
    else if b.total < 1 || (news && b.news < 1) then CounterMismatch
    else Released(Db(db.rows[i := row.(status := OrderStatus.Expired, released := true)], db.claims,
                     b.(total := b.total - 1, news := if news then b.news - 1 else b.news)))
  }

  function ExpireExit(db: Db, i: nat): Db
    requires i < |db.rows|
  {
    var row := db.rows[i];
    if row.status == ReconciliationRequired then SetRow(db, i, row.(status := OrderStatus.Expired)) else db
  }

  /** Compare-and-set: only one caller ever moves a row out of `approved`. */
  function ClaimForDispatch(db: Db, i: nat): (Db, bool)
    requires i < |db.rows|
  {
    var row := db.rows[i];
    if row.status == Approved then (SetRow(db, i, row.(status := ReconciliationRequired)), true) else (db, false)
  }

  function RecordObservation(db: Db, i: nat, snap: Snapshot): Db
    requires i < |db.rows|
  {
    match Observe(db.rows[i], snap)
    case Applied(row) => SetRow(db, i, row)
    case _ => db
  }

  /** The exit's identity is the open round's last buy and the number of sells this cohort has had. */
  function ExitRow(own: seq<OrderRow>, cohort: Cohort, symbol: Symbol, now: int): OrderRow
    requires OpenBuys(own, symbol) != []
  {
    var entry := Last(OpenBuys(own, symbol));
    NewRow(ExitId(cohort, entry.id, CountSells(own, symbol)), cohort, symbol, Sell,
           Inventory(own, symbol), entry.tradeClass, now, entry.exitAt)
  }

  /** The reservation transaction re-checks, under the cohort lock, that no own row is active. */
  function ReserveExit(db: Db, own: seq<OrderRow>, cohort: Cohort, symbol: Symbol, now: int): Db
    requires OpenBuys(own, symbol) != []
  {
    if !AllFinal(OwnRows(db.rows, cohort)) then db
    else db.(rows := db.rows + [ExitRow(own, cohort, symbol, now)])
  }

  // ---- The same transactions, performed in place ----

  method HeldInventory(rows: seq<OrderRow>) returns (held: map<Symbol, real>)
    ensures forall s :: s in held <==> Inventory(rows, s) != 0.0
    ensures forall s :: s in held ==> held[s] == Inventory(rows, s)
  {
    var sums: map<Symbol, real> := map[];
    for i := 0 to |rows|
      invariant forall s :: Inventory(rows[..i], s) == if s in sums then sums[s] else 0.0
    {
      var row := rows[i];
      assert Front(rows[..i + 1]) == rows[..i];
      sums := sums[row.symbol := (if row.symbol in sums then sums[row.symbol] else 0.0) + Signed(row)];
    }
    assert rows[..|rows|] == rows;
    held := map s | s in sums && sums[s] != 0.0 :: sums[s];
  }

  method OpenBuysLoop(rows: seq<OrderRow>, symbol: Symbol) returns (buys: seq<OrderRow>)
    ensures buys == OpenBuys(rows, symbol)
  {
    buys := [];
    var running := 0.0;
    for i := 0 to |rows|
      invariant running == Inventory(rows[..i], symbol)
      invariant buys == OpenBuys(rows[..i], symbol)
    {
      var row := rows[i];
      assert Front(rows[..i + 1]) == rows[..i];
      if row.symbol != symbol { continue; }
      running := running + Signed(row);
      if row.side.Buy? && row.filled > 0.0 { buys := buys + [row]; }
      if running == 0.0 { buys := []; }
    }
    assert rows[..|rows|] == rows;
  }

  method LinkedIds(rows: seq<OrderRow>, brokerIds: set<nat>) returns (importable: bool, local: set<ClientId>)
    ensures importable <==> Importable(rows, brokerIds)
    ensures importable ==> local == LocalIds(rows)
  {
    local := {};
    for i := 0 to |rows|
      invariant local == LocalIds(rows[..i])
      invariant forall j :: 0 <= j < i ==> Settled(rows[j]) && (rows[j].brokerId.Some? ==> rows[j].brokerId.value in brokerIds)
    {
      if !Settled(rows[i]) { return false, local; }
      if rows[i].brokerId.Some? && rows[i].brokerId.value !in brokerIds { return false, local; }
      OneMoreLocal(rows, i);
      local := local + {rows[i].id};
    }
    assert rows[..|rows|] == rows;
    importable := true;
  }

  class Store {
    var rows: seq<OrderRow>
    var claims: set<Claim>
    var budget: Budget

    ghost function View(): Db reads this { Db(rows, claims, budget) }

    constructor ()
      ensures View() == Db([], {}, EMPTY_BUDGET)
    {
      rows, claims, budget := [], {}, EMPTY_BUDGET;
    }

    method SubmitEntry(e: Intent) returns (r: EntryResult)
      modifies this
      ensures (View(), r) == ReserveEntry(old(View()), e)
    {
      var owns := OwnsSchedule(budget, e);
      if budget.scheduled && !owns { return Refused("SCHEDULED_ENTRY_RESERVED"); }
      if e.kind.Calibration? && budget.equipment.Some? { return Duplicate(budget.equipment.value); }
      if e.kind.Strategy? && budget.news >= 1 { return Refused("NEWS_ENTRY_LIMIT"); }
      var claim := ClaimOf(e);
      var id := EntryId(claim);
      if claim in claims { return Duplicate(id); }
      var held := HeldInventory(rows);
      FlatIsEmpty(rows, held);
      if !AllFinal(rows) || held != map[] || !e.brokerIdle { return Refused("POSITION_OR_ORDER_RESERVED"); }
      if budget.total - (if owns then 1 else 0) >= e.limit { return Refused("SESSION_ENTRY_LIMIT"); }
      claims := claims + {claim};
      if owns {
        budget := budget.(scheduled := false);
      } else {
        budget := budget.(total := budget.total + 1);
      }
      if e.kind.Strategy? {
        budget := budget.(news := budget.news + 1);
      } else {
        budget := budget.(equipment := Some(id));
      }
      var row := NewRow(id, e.cohort, e.symbol, Buy, e.quantity, ClassOf(e.kind), e.now, e.exitAt);
      rows := rows + [row];
      r := Reserved(row);
    }

    /** Returns false where the import raises; then nothing has changed. */
    method ImportHistoryInPlace(bought: set<ClientId>, brokerIds: set<nat>) returns (ok: bool)
      modifies this`budget
      ensures match ImportHistory(old(View()), bought, brokerIds) {
        case None => !ok && View() == old(View())
        case Some(db) => ok && View() == db
      }
    {
      var importable, local := LinkedIds(rows, brokerIds);
      if !importable { return false; }
      var external := bought - local;
      if !(budget.external <= external) { return false; }
      budget := budget.(total := budget.total + |external - budget.external|, external := external);
      ok := true;
    }

    /** Returns false where the code raises "unsent reservation counter mismatch". */
    method ExpireUnsentInPlace(i: nat, claimed: bool) returns (ok: bool)
      requires i < |rows|
      modifies this
      ensures match ExpireUnsent(old(View()), i, claimed) {
        case Untouched => ok && View() == old(View())
        case CounterMismatch => !ok && View() == old(View())
        case Released(db) => ok && View() == db
      }
    {
      var row := rows[i];
      if !Releasable(row, claimed) { return true; }
      if budget.total < 1 || (row.tradeClass.NewsStrategy? && budget.news < 1) { return false; }
      budget := budget.(total := budget.total - 1);
      if row.tradeClass.NewsStrategy? { budget := budget.(news := budget.news - 1); }
      rows := rows[i := row.(status := OrderStatus.Expired, released := true)];
      return true;
    }

    method Claim(i: nat) returns (won: bool)
      requires i < |rows|
      modifies this`rows
      ensures (View(), won) == ClaimForDispatch(old(View()), i)
    {
      won := rows[i].status == Approved;
      if won { rows := rows[i := rows[i].(status := ReconciliationRequired)]; }
    }

    method ObserveInPlace(i: nat, snap: Snapshot) returns (outcome: Observation)
      requires i < |rows|
      modifies this`rows
      ensures outcome == Observe(old(rows)[i], snap)
      ensures View() == RecordObservation(old(View()), i, snap)
    {
      var current := rows[i];
      if !Identified(current, snap) { return Mismatch; }
      if Stale(current, snap) { return Ignored; }
      if snap.filled < current.filled { return Decreased; }
      current := current.(brokerId := Some(snap.brokerId), filled := snap.filled, status := Lifecycle(snap.status));
      current := current.(broker := Some(snap));
      rows := rows[i := current];
      outcome := Applied(current);
    }

    /** Supervision reads `own` before the transaction opens. */
    method SubmitExit(own: seq<OrderRow>, cohort: Cohort, symbol: Symbol, now: int) returns (reserved: bool)
      requires OpenBuys(own, symbol) != []
      modifies this`rows
      ensures View() == ReserveExit(old(View()), own, cohort, symbol, now)
      ensures reserved == AllFinal(OwnRows(old(rows), cohort))
    {
      reserved := AllFinal(OwnRows(rows, cohort));
      if reserved {
        var buys := OpenBuysLoop(own, symbol);
        var held := HeldInventory(own);
        var owned := if symbol in held then held[symbol] else 0.0;
        var entry := Last(buys);
        var id := ExitId(cohort, entry.id, CountSells(own, symbol));
        rows := rows + [NewRow(id, cohort, symbol, Sell, owned, entry.tradeClass, now, entry.exitAt)];
      }
    }
  }

  lemma OneMoreLocal(rows: seq<OrderRow>, i: nat)
    requires i < |rows|
    ensures LocalIds(rows[..i + 1]) == LocalIds(rows[..i]) + {rows[i].id}
  {
    assert rows[..i + 1] == rows[..i] + [rows[i]];
    forall id | id in LocalIds(rows[..i]) + {rows[i].id} ensures id in LocalIds(rows[..i + 1]) {
      if id == rows[i].id {
        assert rows[..i + 1][i].id == id;
      } else {
        var j :| 0 <= j < i && rows[..i][j].id == id;
        assert rows[..i + 1][j].id == id;
      }
    }
    forall id | id in LocalIds(rows[..i + 1]) ensures id in LocalIds(rows[..i]) + {rows[i].id} {
      var j :| 0 <= j < i + 1 && rows[..i + 1][j].id == id;
      if j < i { assert rows[..i][j].id == id; }
    }
  }

  lemma {:induction false} AbsentSymbolIsFlat(rows: seq<OrderRow>, symbol: Symbol)
    requires forall i :: 0 <= i < |rows| ==> rows[i].symbol != symbol
    ensures Inventory(rows, symbol) == 0.0
  {
    if rows != [] { AbsentSymbolIsFlat(Front(rows), symbol); }
  }

  lemma FlatEverywhere(rows: seq<OrderRow>, symbol: Symbol)
    requires Flat(rows)
    ensures Inventory(rows, symbol) == 0.0
  {
    if forall i :: 0 <= i < |rows| ==> rows[i].symbol != symbol {
      AbsentSymbolIsFlat(rows, symbol);
    }
  }

  lemma FlatIsEmpty(rows: seq<OrderRow>, held: map<Symbol, real>)
    requires forall s :: s in held <==> Inventory(rows, s) != 0.0
    ensures Flat(rows) <==> held == map[]
  {
    if Flat(rows) {
      forall s ensures s !in held { FlatEverywhere(rows, s); }
    } else {
      var i :| 0 <= i < |rows| && Inventory(rows, rows[i].symbol) != 0.0;
      assert rows[i].symbol in held;
    }
  }
}
