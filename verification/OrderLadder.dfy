/** The shape every reachable list of order rows has: only the last row can be active, a buy is
    reserved only when nothing is held, and a sell asks for exactly what is held. */
module OrderLadder {
  import opened Orders
  import opened SessionStore

  datatype Holding =
    | Nothing
    | Held(cohort: Cohort, symbol: Symbol, quantity: real, tradeClass: TradeClass, entry: ClientId)

  ghost function Holds(rows: seq<OrderRow>): Holding {
    if rows == [] then Nothing
    else
      var before := Holds(Front(rows));
      var row := Last(rows);
      if row.side.Buy? then
        if row.filled == 0.0 then before
        else Held(row.cohort, row.symbol, row.filled, row.tradeClass, row.id)
      else if before.Nothing? || before.quantity == row.filled then Nothing
      else before.(quantity := before.quantity - row.filled)
  }

  ghost predicate Fits(before: Holding, row: OrderRow) {
    && 0.0 < row.quantity && 0.0 <= row.filled <= row.quantity
    && if row.side.Buy? then before.Nothing?
       else before.Held? && before.cohort == row.cohort && before.symbol == row.symbol
            && before.quantity == row.quantity && before.tradeClass == row.tradeClass
  }

  ghost predicate Ladder(rows: seq<OrderRow>) {
    rows != [] ==> Ladder(Front(rows)) && AllFinal(Front(rows)) && Fits(Holds(Front(rows)), Last(rows))
  }

  ghost function QuantityIn(h: Holding, symbol: Symbol): real {
    if h.Held? && h.symbol == symbol then h.quantity else 0.0
  }

  lemma {:induction false} LadderInventory(rows: seq<OrderRow>, symbol: Symbol)
    requires Ladder(rows)
    ensures Holds(rows).Held? ==> Holds(rows).quantity > 0.0
    ensures Inventory(rows, symbol) == QuantityIn(Holds(rows), symbol)
  {
    if rows != [] { LadderInventory(Front(rows), symbol); }
  }

  lemma {:induction false} LadderOwnInventory(rows: seq<OrderRow>, cohort: Cohort, symbol: Symbol)
    requires Ladder(rows)
    ensures Inventory(OwnRows(rows, cohort), symbol)
         == if Holds(rows).Held? && Holds(rows).cohort == cohort then QuantityIn(Holds(rows), symbol) else 0.0
  {
    if rows != [] {
      LadderOwnInventory(Front(rows), cohort, symbol);
      OwnRowsStep(rows, cohort);
      if Last(rows).cohort == cohort {
        FrontAppend(OwnRows(Front(rows), cohort), Last(rows));
      }
    }
  }

  lemma OwnRowsStep(rows: seq<OrderRow>, cohort: Cohort)
    requires rows != []
    ensures OwnRows(rows, cohort)
         == if Last(rows).cohort == cohort then OwnRows(Front(rows), cohort) + [Last(rows)] else OwnRows(Front(rows), cohort)
  {
  }

  /** Nothing is held exactly when every inventory is zero. */
  lemma FlatMeansNothing(rows: seq<OrderRow>)
    requires Ladder(rows)
    ensures Flat(rows) <==> Holds(rows).Nothing?
  {
    if Holds(rows).Held? {
      var s := Holds(rows).symbol;
      LadderInventory(rows, s);
      if Flat(rows) { FlatEverywhere(rows, s); }
    } else {
      forall i | 0 <= i < |rows| ensures Inventory(rows, rows[i].symbol) == 0.0 {
        LadderInventory(rows, rows[i].symbol);
      }
    }
  }

  lemma LadderFinalFront(rows: seq<OrderRow>)
    requires Ladder(rows)
    ensures forall i :: 0 <= i < |rows| - 1 ==> Final(rows[i].status)
  {
    forall i | 0 <= i < |rows| - 1 ensures Final(rows[i].status) {
      assert Front(rows)[i] == rows[i];
    }
  }

  lemma {:induction false} LadderFits(rows: seq<OrderRow>, i: nat)
    requires Ladder(rows) && i < |rows|
    ensures 0.0 < rows[i].quantity && 0.0 <= rows[i].filled <= rows[i].quantity
  {
    if i < |rows| - 1 {
      LadderFits(Front(rows), i);
      assert Front(rows)[i] == rows[i];
    }
  }

  /** A cohort that holds something while its own rows and the symbol's rows are final shows that
      every row of the session is final. */
  lemma ExitFindsEverythingFinal(rows: seq<OrderRow>, cohort: Cohort, symbol: Symbol)
    requires Ladder(rows)
    requires Inventory(OwnRows(rows, cohort), symbol) != 0.0
    requires AllFinal(OwnRows(rows, cohort))
    ensures AllFinal(rows)
    ensures Holds(rows).Held? && Holds(rows).cohort == cohort && Holds(rows).symbol == symbol
    ensures Holds(rows).quantity == Inventory(OwnRows(rows, cohort), symbol)
  {
    LadderOwnInventory(rows, cohort, symbol);
    var last := Last(rows);
    OwnRowsStep(rows, cohort);
    if last.cohort == cohort {
      assert OwnRows(rows, cohort)[|OwnRows(rows, cohort)| - 1] == last;
    }
    LadderFinalFront(rows);
  }

  // ---- Identities ----

  ghost predicate SameIntent(a: OrderRow, b: OrderRow) {
    a.id == b.id && a.cohort == b.cohort && a.symbol == b.symbol && a.side == b.side
    && a.quantity == b.quantity && a.tradeClass == b.tradeClass
    && a.createdAt == b.createdAt && a.exitAt == b.exitAt
  }

  ghost predicate IdsDistinct(rows: seq<OrderRow>) {
    forall i, j :: 0 <= i < j < |rows| ==> rows[i].id != rows[j].id
  }

  ghost predicate BuysClaimed(rows: seq<OrderRow>, claims: set<Claim>) {
    forall i :: 0 <= i < |rows| && rows[i].side.Buy? ==> rows[i].id.EntryId? && rows[i].id.claim in claims
  }

  ghost predicate EntryAt(rows: seq<OrderRow>, j: int, row: OrderRow) {
    0 <= j < |rows| && row.id.ExitId? && rows[j].id == row.id.entry && rows[j].side.Buy?
    && rows[j].symbol == row.symbol && rows[j].cohort == row.cohort
  }

  ghost predicate SellNumbered(before: seq<OrderRow>, row: OrderRow) {
    && row.id.ExitId? && row.id.cohort == row.cohort
    && row.id.sequence == CountSells(OwnRows(before, row.cohort), row.symbol)
    && exists j :: EntryAt(before, j, row)
  }

  ghost predicate SellsNumbered(rows: seq<OrderRow>) {
    forall i :: 0 <= i < |rows| && rows[i].side.Sell? ==> SellNumbered(rows[..i], rows[i])
  }

  lemma {:induction false} SellsGrow(rows: seq<OrderRow>, i: nat)
    requires i < |rows| && rows[i].side.Sell?
    ensures CountSells(OwnRows(rows[..i], rows[i].cohort), rows[i].symbol)
          < CountSells(OwnRows(rows, rows[i].cohort), rows[i].symbol)
    decreases |rows|
  {
    var c := rows[i].cohort;
    OwnRowsStep(rows, c);
    if Last(rows).cohort == c { FrontAppend(OwnRows(Front(rows), c), Last(rows)); }
    if i < |rows| - 1 {
      assert Front(rows)[..i] == rows[..i] && Front(rows)[i] == rows[i];
      SellsGrow(Front(rows), i);
    } else {
      assert Front(rows) == rows[..i];
    }
  }

  /** A sell numbered by the current count cannot repeat any earlier id. */
  lemma ExitIdFresh(rows: seq<OrderRow>, claims: set<Claim>, row: OrderRow)
    requires IdsDistinct(rows) && BuysClaimed(rows, claims) && SellsNumbered(rows)
    requires row.side.Sell? && SellNumbered(rows, row)
    ensures forall i :: 0 <= i < |rows| ==> rows[i].id != row.id
  {
    forall i | 0 <= i < |rows| ensures rows[i].id != row.id {
      if rows[i].id == row.id {
        assert rows[i].side.Sell?;
        var j :| EntryAt(rows, j, row);
        var j' :| EntryAt(rows[..i], j', rows[i]);
        assert rows[j'].id == rows[j].id;
        assert j == j';
        SellsGrow(rows, i);
      }
    }
  }

  lemma EntryIdFresh(rows: seq<OrderRow>, claims: set<Claim>, claim: Claim)
    requires BuysClaimed(rows, claims) && SellsNumbered(rows) && claim !in claims
    ensures forall i :: 0 <= i < |rows| ==> rows[i].id != EntryId(claim)
  {
    forall i | 0 <= i < |rows| ensures rows[i].id != EntryId(claim) {
      if rows[i].side.Sell? { assert SellNumbered(rows[..i], rows[i]); }
    }
  }

  // ---- Budget ----

  ghost predicate Charged(row: OrderRow) { row.side.Buy? && !row.released }

  ghost function CountCharged(rows: seq<OrderRow>): nat {
    if rows == [] then 0 else CountCharged(Front(rows)) + if Charged(Last(rows)) then 1 else 0
  }

  ghost function CountChargedNews(rows: seq<OrderRow>): nat {
    if rows == [] then 0
    else CountChargedNews(Front(rows)) + if Charged(Last(rows)) && Last(rows).tradeClass.NewsStrategy? then 1 else 0
  }

  /** The session's own entries: those still charged, plus the scheduled one not yet ordered. */
  ghost function OwnEntries(db: Db): nat { CountCharged(db.rows) + if db.budget.scheduled then 1 else 0 }

  /** The counters are exactly the own entries plus the imported buys this store did not place. */
  ghost predicate Conserved(db: Db) {
    && db.budget.total == OwnEntries(db) + |db.budget.external|
    && db.budget.news == CountChargedNews(db.rows)
    && OwnEntries(db) <= 2 && db.budget.news <= 1
    && (db.budget.scheduled ==> db.budget.scheduledRequest.Some?)
  }

  ghost predicate RowsOk(db: Db) {
    && Ladder(db.rows) && IdsDistinct(db.rows) && BuysClaimed(db.rows, db.claims)
    && SellsNumbered(db.rows) && Conserved(db)
  }

  ghost predicate LastChanged(rows: seq<OrderRow>, after: seq<OrderRow>, row: OrderRow) {
    rows != [] && SameIntent(Last(rows), row) && after == Front(rows) + [row]
  }

  lemma RowsAfterChange(db: Db, after: Db, row: OrderRow)
    requires RowsOk(db) && LastChanged(db.rows, after.rows, row) && after.claims == db.claims
    requires 0.0 <= row.filled <= row.quantity
    requires Conserved(after)
    ensures RowsOk(after)
  {
    FrontAppend(Front(db.rows), row);
    forall i | 0 <= i < |after.rows| && after.rows[i].side.Sell?
      ensures SellNumbered(after.rows[..i], after.rows[i])
    {
      assert after.rows[..i] == db.rows[..i];
      assert SellNumbered(db.rows[..i], db.rows[i]);
      var j :| EntryAt(db.rows[..i], j, db.rows[i]);
      assert EntryAt(after.rows[..i], j, after.rows[i]);
    }
  }

  lemma RowsAfterAppend(db: Db, after: Db, row: OrderRow)
    requires RowsOk(db) && AllFinal(db.rows) && Fits(Holds(db.rows), row)
    requires after.rows == db.rows + [row] && db.claims <= after.claims
    requires forall i :: 0 <= i < |db.rows| ==> db.rows[i].id != row.id
    requires row.side.Buy? ==> row.id.EntryId? && row.id.claim in after.claims
    requires row.side.Sell? ==> SellNumbered(db.rows, row)
    requires Conserved(after)
    ensures RowsOk(after)
  {
    FrontAppend(db.rows, row);
    forall i | 0 <= i < |after.rows| && after.rows[i].side.Sell?
      ensures SellNumbered(after.rows[..i], after.rows[i])
    {
      assert after.rows[i] == if i < |db.rows| then db.rows[i] else row;
      var before := if i < |db.rows| then db.rows[..i] else db.rows;
      assert after.rows[..i] == before;
      assert SellNumbered(before, after.rows[i]);
    }
  }
}
