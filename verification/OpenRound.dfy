/** Three computations of "the open round": the exit loop's buys, the protection trigger's active
    list, and the last unclosed round of the ledger. */
module OpenRound {
  import opened Orders
  import opened SessionStore
  import opened OrderProtocol
  import opened OrderLadder
  import opened OrderSync
  import opened OrderInvariant
  import opened OrderSteps
  import opened Ledger
  import opened LedgerRounds

  /** The loop of the protection trigger: it agrees with the exit loop on every list of rows. */
  method ActiveBuys(rows: seq<OrderRow>) returns (active: map<Symbol, seq<OrderRow>>)
    ensures forall s :: s in active <==> OpenBuys(rows, s) != []
    ensures forall s :: s in active ==> active[s] == OpenBuys(rows, s)
  {
    active := map[];
    var quantities: map<Symbol, real> := map[];
    for i := 0 to |rows|
      invariant forall s :: Inventory(rows[..i], s) == if s in quantities then quantities[s] else 0.0
      invariant forall s :: s in active <==> OpenBuys(rows[..i], s) != []
      invariant forall s :: s in active ==> active[s] == OpenBuys(rows[..i], s)
    {
      var row := rows[i];
      var symbol := row.symbol;
      assert Front(rows[..i + 1]) == rows[..i];
      quantities := quantities[symbol := (if symbol in quantities then quantities[symbol] else 0.0) + Signed(row)];
      if row.side.Buy? && row.filled > 0.0 {
        active := active[symbol := (if symbol in active then active[symbol] else []) + [row]];
      }
      if quantities[symbol] == 0.0 { active := active - {symbol}; }
    }
    assert rows[..|rows|] == rows;
  }

  ghost function BuysOf(round: seq<OrderRow>): seq<OrderRow> {
    if round == [] then []
    else BuysOf(Front(round)) + if Last(round).side.Buy? then [Last(round)] else []
  }

  ghost predicate FillsMatch(rows: seq<OrderRow>) {
    forall i :: 0 <= i < |rows| ==> Fill(rows[i]) == rows[i].filled
  }

  /** The ledger's open rounds of this cohort are exactly the held round, and its buys are the exit
      loop's list. */
  ghost predicate LedgerAgrees(rows: seq<OrderRow>, cohort: Cohort) {
    var own := OwnRows(rows, cohort);
    var book := Rounds(own);
    var h := Holds(rows);
    if h.Held? && h.cohort == cohort then
      && book.rounds != []
      && book.active == map[Key(h.symbol, h.tradeClass) := (|book.rounds| - 1, h.quantity)]
      && BuysOf(book.rounds[|book.rounds| - 1]) == OpenBuys(own, h.symbol)
    else book.active == map[]
  }

  lemma OneBuy(row: OrderRow)
    requires row.side.Buy?
    ensures BuysOf([row]) == [row]
  {
    FrontAppend([], row);
    assert [row] == [] + [row];
  }

  lemma BuyOpensRound(rows: seq<OrderRow>, cohort: Cohort)
    requires rows != [] && Ladder(rows) && LedgerAgrees(Front(rows), cohort)
    requires Last(rows).cohort == cohort && Last(rows).side.Buy? && Last(rows).filled > 0.0
    requires Fill(Last(rows)) == Last(rows).filled && OpensWith(rows, cohort, Last(rows).symbol)
    requires OpenBuys(OwnRows(Front(rows), cohort), Last(rows).symbol) == []
    requires Inventory(OwnRows(rows, cohort), Last(rows).symbol) != 0.0
    ensures LedgerAgrees(rows, cohort)
  {
    var own, last := OwnRows(Front(rows), cohort), Last(rows);
    OwnRowsStep(rows, cohort);
    FrontAppend(own, last);
    OneBuy(last);
  }

  lemma SellReducesRound(rows: seq<OrderRow>, cohort: Cohort)
    requires rows != [] && Ladder(rows) && LedgerAgrees(Front(rows), cohort)
    requires Last(rows).cohort == cohort && Last(rows).side.Sell? && Last(rows).filled != 0.0
    requires Fill(Last(rows)) == Last(rows).filled
    requires Inventory(OwnRows(rows, cohort), Last(rows).symbol)
          == if Holds(rows).Held? && Holds(rows).cohort == cohort then QuantityIn(Holds(rows), Last(rows).symbol) else 0.0
    requires Holds(rows).Held? ==> Holds(rows).quantity > 0.0
    ensures LedgerAgrees(rows, cohort)
  {
    var own, last := OwnRows(Front(rows), cohort), Last(rows);
    OwnRowsStep(rows, cohort);
    FrontAppend(own, last);
    var book := Rounds(own);
    var round := book.rounds[|book.rounds| - 1];
    FrontAppend(round, last);
    assert BuysOf(round + [last]) == BuysOf(round);
  }

  lemma OtherRowKeepsRound(rows: seq<OrderRow>, cohort: Cohort)
    requires rows != [] && Ladder(rows) && LedgerAgrees(Front(rows), cohort)
    requires Last(rows).cohort != cohort || Last(rows).filled == 0.0
    requires Fill(Last(rows)) == Last(rows).filled
    requires Holds(rows).Held? && Holds(rows).cohort == cohort ==>
      OpenBuys(OwnRows(rows, cohort), Holds(rows).symbol) == OpenBuys(OwnRows(Front(rows), cohort), Holds(rows).symbol)
    ensures LedgerAgrees(rows, cohort)
  {
    OwnRowsStep(rows, cohort);
    if Last(rows).cohort == cohort { FrontAppend(OwnRows(Front(rows), cohort), Last(rows)); }
  }

  lemma ZeroFillKeepsBuys(rows: seq<OrderRow>, cohort: Cohort, symbol: Symbol)
    requires rows != [] && Ladder(rows) && Holder(Holds(rows), cohort, symbol)
    requires Last(rows).cohort != cohort || Last(rows).filled == 0.0
    ensures OpenBuys(OwnRows(rows, cohort), symbol) == OpenBuys(OwnRows(Front(rows), cohort), symbol)
  {
    LadderOwnInventory(rows, cohort, symbol);
    LadderInventory(rows, symbol);
    OwnRowsStep(rows, cohort);
    if Last(rows).cohort == cohort { FrontAppend(OwnRows(Front(rows), cohort), Last(rows)); }
  }

  lemma {:induction false} LedgerFollowsLadder(rows: seq<OrderRow>, cohort: Cohort)
    requires Ladder(rows) && FillsMatch(rows)
    ensures LedgerAgrees(rows, cohort)
  {
    if rows != [] {
      var last := Last(rows);
      assert rows[|rows| - 1] == last;
      LedgerFollowsLadder(Front(rows), cohort);
      if last.cohort != cohort || last.filled == 0.0 {
        if Holds(rows).Held? && Holds(rows).cohort == cohort { ZeroFillKeepsBuys(rows, cohort, Holds(rows).symbol); }
        OtherRowKeepsRound(rows, cohort);
      } else {
        LadderOwnInventory(rows, cohort, last.symbol);
        LadderInventory(rows, last.symbol);
        if last.side.Buy? {
          OpenBuyIsEntry(Front(rows), cohort, last.symbol);
          OpenBuyIsEntry(rows, cohort, last.symbol);
          BuyOpensRound(rows, cohort);
        } else {
          SellReducesRound(rows, cohort);
        }
      }
    }
  }

  lemma ReachableFillsMatch(s: System)
    requires Inv(s)
    ensures FillsMatch(s.db.rows)
  {
    forall i | 0 <= i < |s.db.rows| ensures Fill(s.db.rows[i]) == s.db.rows[i].filled {
      assert Synced(s.db.rows[i], s.broker, StageOf(s.worker, i));
    }
  }

  /** In every reachable state, for every cohort and symbol: the exit loop has buys exactly when the
      ledger has an unclosed round of that symbol, and then they are that round's buys and the
      inventory is its running quantity. */
  lemma OpenRoundsAgree(s: System, cohort: Cohort, symbol: Symbol, c: TradeClass)
    requires Reachable(s)
    ensures var own := OwnRows(s.db.rows, cohort);
      var book := Rounds(own);
      && (Key(symbol, c) in book.active ==>
            var (r, quantity) := book.active[Key(symbol, c)];
            BuysOf(book.rounds[r]) == OpenBuys(own, symbol) != [] && quantity == Inventory(own, symbol))
      && ((exists d :: Key(symbol, d) in book.active) <==> OpenBuys(own, symbol) != [])
  {
    ReachableInv(s);
    ReachableFillsMatch(s);
    LedgerFollowsLadder(s.db.rows, cohort);
    OpenBuyIsEntry(s.db.rows, cohort, symbol);
    LadderOwnInventory(s.db.rows, cohort, symbol);
    var h := Holds(s.db.rows);
    if Holder(h, cohort, symbol) {
      assert Key(symbol, h.tradeClass) in Rounds(OwnRows(s.db.rows, cohort)).active;
    }
  }

  /** Whenever supervision finds something owned, the list whose earliest exit time it takes is not
      empty, and what is owned is positive. */
  lemma ExitDeadlineDefined(s: System, cohort: Cohort, symbol: Symbol)
    requires Reachable(s)
    requires Inventory(OwnRows(s.db.rows, cohort), symbol) != 0.0
    ensures Inventory(OwnRows(s.db.rows, cohort), symbol) > 0.0
    ensures OpenBuys(OwnRows(s.db.rows, cohort), symbol) != []
  {
    ReachableInv(s);
    LadderOwnInventory(s.db.rows, cohort, symbol);
    LadderInventory(s.db.rows, symbol);
    OpenBuyIsEntry(s.db.rows, cohort, symbol);
  }
}
