/** Economics of confirmed broker fills: per-row costs, whole ledgers, class ledgers and rounds. */
module Ledger {
  import opened Orders

  type Marks = map<Symbol, real>

  const RESIDUAL_RATE := 0.00005
  const SELL_VALUE_RATE := 0.0000206
  const SELL_SHARE_RATE := 0.000195
  const SELL_MINIMUM := 0.01

  // ---- One row ----

  function Fill(row: OrderRow): real { if row.broker.Some? then row.broker.value.filled else 0.0 }

  function FillPrice(row: OrderRow): Option<real> {
    if row.broker.Some? && row.broker.value.price.Some? && row.broker.value.price.value > 0.0
    then row.broker.value.price else None
  }

  predicate Priced(row: OrderRow) { Fill(row) == 0.0 || FillPrice(row).Some? }

  function SignedFill(row: OrderRow): real { if row.side.Buy? then Fill(row) else -Fill(row) }

  function Notional(row: OrderRow): real {
    if FillPrice(row).Some? then Fill(row) * FillPrice(row).value else 0.0
  }

  function Cash(row: OrderRow): real { if row.side.Buy? then -Notional(row) else Notional(row) }

  function EntryNotional(row: OrderRow): real { if row.side.Buy? then Notional(row) else 0.0 }

  function ExitNotional(row: OrderRow): real { if row.side.Sell? then Notional(row) else 0.0 }

  function Residual(row: OrderRow): real { Notional(row) * RESIDUAL_RATE }

  function Fee(row: OrderRow): real {
    if row.side.Buy? || Fill(row) == 0.0 || FillPrice(row).None? then 0.0
    else
      var charge := Notional(row) * SELL_VALUE_RATE + Fill(row) * SELL_SHARE_RATE;
      if charge > SELL_MINIMUM then charge else SELL_MINIMUM
  }

  /** What a filled row costs beyond its price: half a basis point of what was traded; and for a sale the
      reserve for fees, which is a cent or the two rates together, whichever is more. */
  lemma CostsOfFill(row: OrderRow, price: real)
    requires Fill(row) > 0.0 && row.broker.value.price == Some(price) && price > 0.0
    ensures 20000.0 * Residual(row) == Fill(row) * price
    ensures row.side.Buy? ==>
      Fee(row) == 0.0 && Cash(row) == -(Fill(row) * price) && EntryNotional(row) == Fill(row) * price && ExitNotional(row) == 0.0
    ensures row.side.Sell? ==>
      var rates := Fill(row) * price * 0.0000206 + Fill(row) * 0.000195;
      && Fee(row) >= 0.01 && Fee(row) >= rates && (Fee(row) == 0.01 || Fee(row) == rates)
      && Cash(row) == Fill(row) * price && EntryNotional(row) == 0.0 && ExitNotional(row) == Fill(row) * price
  {
  }

  function MarkOf(marks: Marks, symbol: Symbol): real { if symbol in marks then marks[symbol] else 0.0 }

  // ---- A ledger ----

  ghost function Total(rows: seq<OrderRow>, f: OrderRow -> real): real {
    if rows == [] then 0.0 else Total(Front(rows), f) + f(Last(rows))
  }

  ghost function Net(rows: seq<OrderRow>, symbol: Symbol): real {
    Total(rows, (row: OrderRow) => if row.symbol == symbol then SignedFill(row) else 0.0)
  }

  ghost function MarkedValue(rows: seq<OrderRow>, marks: Marks): real {
    Total(rows, (row: OrderRow) => SignedFill(row) * MarkOf(marks, row.symbol))
  }

  ghost predicate AllPriced(rows: seq<OrderRow>) { forall i :: 0 <= i < |rows| ==> Priced(rows[i]) }

  ghost predicate AllMarked(rows: seq<OrderRow>, marks: Marks) {
    forall symbol :: Net(rows, symbol) != 0.0 ==> symbol in marks
  }

  ghost predicate Valued(rows: seq<OrderRow>, marks: Marks) { AllPriced(rows) && AllMarked(rows, marks) }

  ghost function BrokerPnl(rows: seq<OrderRow>, marks: Marks): real {
    Total(rows, Cash) + MarkedValue(rows, marks)
  }

  ghost function EconomicPnl(rows: seq<OrderRow>, marks: Marks): real {
    BrokerPnl(rows, marks) - Total(rows, Fee) - Total(rows, Residual)
  }

  datatype Report = Report(
    positions: map<Symbol, real>, missing: set<Symbol>, unvalued: seq<ClientId>,
    brokerPnl: Option<real>, economicPnl: Option<real>,
    deployed: Option<real>, exited: Option<real>, fees: Option<real>, omissions: Option<real>)

  ghost function Unpriced(rows: seq<OrderRow>): seq<ClientId> {
    if rows == [] then []
    else Unpriced(Front(rows)) + if Priced(Last(rows)) then [] else [Last(rows).id]
  }

  ghost predicate PricedSide(rows: seq<OrderRow>, side: Side) {
    forall i :: 0 <= i < |rows| && rows[i].side == side ==> Priced(rows[i])
  }

  ghost predicate ReportsPositions(r: Report, rows: seq<OrderRow>, marks: Marks) {
    && (forall s :: (s in r.positions <==> Net(rows, s) != 0.0) && (s in r.positions ==> r.positions[s] == Net(rows, s)))
    && (forall s :: s in r.missing <==> Net(rows, s) != 0.0 && s !in marks)
  }

  ghost predicate ReportsMoney(r: Report, rows: seq<OrderRow>, marks: Marks) {
    && r.unvalued == Unpriced(rows)
    && r.brokerPnl == (if Valued(rows, marks) then Some(BrokerPnl(rows, marks)) else None)
    && r.economicPnl == (if Valued(rows, marks) then Some(EconomicPnl(rows, marks)) else None)
    && r.deployed == (if PricedSide(rows, Buy) then Some(Total(rows, EntryNotional)) else None)
    && r.exited == (if PricedSide(rows, Sell) then Some(Total(rows, ExitNotional)) else None)
    && r.fees == (if PricedSide(rows, Sell) then Some(Total(rows, Fee)) else None)
    && r.omissions == (if AllPriced(rows) then Some(Total(rows, Residual)) else None)
  }

  ghost predicate Reports(r: Report, rows: seq<OrderRow>, marks: Marks) {
    ReportsPositions(r, rows, marks) && ReportsMoney(r, rows, marks)
  }

  // ---- The accumulator loop ----

  /** Sum over a dictionary's keys in insertion order. */
  ghost function WeightedSum(order: seq<Symbol>, q: Symbol -> real, marks: Marks): real {
    if order == [] then 0.0
    else WeightedSum(order[1..], q, marks) + q(order[0]) * MarkOf(marks, order[0])
  }

  ghost predicate Distinct<T>(xs: seq<T>) { forall i, j :: 0 <= i < j < |xs| ==> xs[i] != xs[j] }

  /** p is q with d added at x. */
  ghost predicate Shifts(q: Symbol -> real, p: Symbol -> real, x: Symbol, d: real) {
    forall s :: p(s) == q(s) + if s == x then d else 0.0
  }

  lemma Distribute(a: real, b: real, c: real)
    ensures (a + b) * c == a * c + b * c
  {
  }

  lemma {:induction false} WeightedSumShift(order: seq<Symbol>, q: Symbol -> real, p: Symbol -> real, x: Symbol, d: real, marks: Marks)
    requires Distinct(order) && Shifts(q, p, x, d)
    ensures WeightedSum(order, p, marks) == WeightedSum(order, q, marks) + if x in order then d * MarkOf(marks, x) else 0.0
  {
    if order != [] {
      assert Distinct(order[1..]) by {
        forall i, j | 0 <= i < j < |order| - 1 ensures order[1..][i] != order[1..][j] {
          assert order[i + 1] != order[j + 1];
        }
      }
      WeightedSumShift(order[1..], q, p, x, d, marks);
      assert p(order[0]) == q(order[0]) + if order[0] == x then d else 0.0;
      if order[0] == x {
        assert x !in order[1..];
        Distribute(q(x), d, MarkOf(marks, x));
      }
    }
  }

  lemma {:induction false} WeightedSumZero(order: seq<Symbol>, marks: Marks)
    ensures WeightedSum(order, s => 0.0, marks) == 0.0
  {
    if order != [] { WeightedSumZero(order[1..], marks); }
  }

  lemma {:induction false} WeightedSumSame(order: seq<Symbol>, q: Symbol -> real, p: Symbol -> real, marks: Marks)
    requires forall i :: 0 <= i < |order| ==> q(order[i]) == p(order[i])
    ensures WeightedSum(order, q, marks) == WeightedSum(order, p, marks)
  {
    if order != [] {
      forall i | 0 <= i < |order[1..]| ensures q(order[1..][i]) == p(order[1..][i]) {
        assert order[1..][i] == order[i + 1];
      }
      assert q(order[0]) == p(order[0]);
      WeightedSumSame(order[1..], q, p, marks);
    }
  }

  ghost function NetOf(rows: seq<OrderRow>): Symbol -> real { s => Net(rows, s) }

  lemma NetLast(rows: seq<OrderRow>)
    requires rows != []
    ensures Shifts(NetOf(Front(rows)), NetOf(rows), Last(rows).symbol, SignedFill(Last(rows)))
  {
  }

  lemma MarkedLast(rows: seq<OrderRow>, marks: Marks)
    requires rows != []
    ensures MarkedValue(rows, marks) == MarkedValue(Front(rows), marks) + SignedFill(Last(rows)) * MarkOf(marks, Last(rows).symbol)
  {
  }

  lemma CashAtMark(row: OrderRow, marks: Marks)
    requires row.symbol in marks && FillPrice(row) == Some(marks[row.symbol])
    ensures Cash(row) + SignedFill(row) * MarkOf(marks, row.symbol) == 0.0
  {
  }

  /** Trading at the mark changes nothing but the costs: positions are worth what selling them at the mark
      would bring. */
  lemma TradingAtTheMark(rows: seq<OrderRow>, row: OrderRow, marks: Marks)
    requires row.symbol in marks && FillPrice(row) == Some(marks[row.symbol])
    ensures BrokerPnl(rows + [row], marks) == BrokerPnl(rows, marks)
    ensures EconomicPnl(rows + [row], marks) == EconomicPnl(rows, marks) - Fee(row) - Residual(row)
  {
    FrontAppend(rows, row);
    MarkedLast(rows + [row], marks);
    CashAtMark(row, marks);
  }

  /** A ledger is valued exactly when every fill has a positive price and every open symbol a mark. */
  lemma PricedAndMarked(rows: seq<OrderRow>, marks: Marks)
    ensures Valued(rows, marks) <==>
              && (forall i :: 0 <= i < |rows| && rows[i].broker.Some? && rows[i].broker.value.filled != 0.0 ==>
                    rows[i].broker.value.price.Some? && rows[i].broker.value.price.value > 0.0)
              && (forall symbol :: Net(rows, symbol) != 0.0 ==> symbol in marks)
  {
    forall i | 0 <= i < |rows|
      ensures Priced(rows[i]) <==> (rows[i].broker.Some? && rows[i].broker.value.filled != 0.0 ==>
                rows[i].broker.value.price.Some? && rows[i].broker.value.price.value > 0.0)
    {
    }
  }

  lemma NetOfNothing(order: seq<Symbol>, marks: Marks)
    ensures WeightedSum(order, NetOf([]), marks) == 0.0
  {
    WeightedSumZero(order, marks);
    WeightedSumSame(order, NetOf([]), s => 0.0, marks);
  }

  lemma OnlyListed(d: real, m: real, listed: bool)
    requires listed || d == 0.0
    ensures (if listed then d * m else 0.0) == d * m
  {
  }

  lemma ShiftByLast(rows: seq<OrderRow>, order: seq<Symbol>, marks: Marks)
    requires rows != [] && Distinct(order) && (Fill(Last(rows)) != 0.0 ==> Last(rows).symbol in order)
    ensures WeightedSum(order, NetOf(rows), marks)
            == WeightedSum(order, NetOf(Front(rows)), marks) + SignedFill(Last(rows)) * MarkOf(marks, Last(rows).symbol)
  {
    NetLast(rows);
    WeightedSumShift(order, NetOf(Front(rows)), NetOf(rows), Last(rows).symbol, SignedFill(Last(rows)), marks);
    OnlyListed(SignedFill(Last(rows)), MarkOf(marks, Last(rows).symbol), Last(rows).symbol in order);
  }

  /** Marking the net quantities once per symbol equals marking every fill. */
  lemma {:induction false} NetsMarkLikeFills(rows: seq<OrderRow>, order: seq<Symbol>, marks: Marks)
    requires Distinct(order) && forall i :: 0 <= i < |rows| && Fill(rows[i]) != 0.0 ==> rows[i].symbol in order
    ensures WeightedSum(order, NetOf(rows), marks) == MarkedValue(rows, marks)
  {
    if rows == [] {
      NetOfNothing(order, marks);
    } else {
      assert rows[|rows| - 1] == Last(rows);
      NetsMarkLikeFills(Front(rows), order, marks);
      ShiftByLast(rows, order, marks);
      MarkedLast(rows, marks);
    }
  }

  /** The loop's accumulators. `order` lists the keys of `quantities` as a dictionary keeps them. */
  datatype Sums = Sums(
    cash: real, entered: real, exited: real, fees: real, omissions: real,
    order: seq<Symbol>, quantities: map<Symbol, real>,
    unvalued: seq<ClientId>, entryMissing: bool, exitMissing: bool)

  const NO_SUMS := Sums(0.0, 0.0, 0.0, 0.0, 0.0, [], map[], [], false, false)

  function Quantity(quantities: map<Symbol, real>, symbol: Symbol): real {
    if symbol in quantities then quantities[symbol] else 0.0
  }

  function AddFill(a: Sums, row: OrderRow): Sums {
    if Fill(row) == 0.0 then a
    else
      var counted := a.(
        order := if row.symbol in a.quantities then a.order else a.order + [row.symbol],
        quantities := a.quantities[row.symbol := Quantity(a.quantities, row.symbol) + SignedFill(row)]);
      if FillPrice(row).None? then
        counted.(entryMissing := a.entryMissing || row.side.Buy?, exitMissing := a.exitMissing || row.side.Sell?,
                 unvalued := a.unvalued + [row.id])
      else
        counted.(cash := a.cash + Cash(row), omissions := a.omissions + Residual(row), fees := a.fees + Fee(row),
                 entered := a.entered + EntryNotional(row), exited := a.exited + ExitNotional(row))
  }

  ghost predicate MoneyOk(a: Sums, rows: seq<OrderRow>) {
    && a.cash == Total(rows, Cash) && a.entered == Total(rows, EntryNotional)
    && a.exited == Total(rows, ExitNotional) && a.fees == Total(rows, Fee) && a.omissions == Total(rows, Residual)
  }

  ghost predicate MissingOk(a: Sums, rows: seq<OrderRow>) {
    && a.unvalued == Unpriced(rows) && (a.unvalued == [] <==> AllPriced(rows))
    && (a.entryMissing <==> !PricedSide(rows, Buy)) && (a.exitMissing <==> !PricedSide(rows, Sell))
  }

  ghost predicate QuantitiesOk(a: Sums, rows: seq<OrderRow>) {
    && Distinct(a.order) && (forall s :: s in a.order <==> s in a.quantities)
    && (forall s :: Net(rows, s) == Quantity(a.quantities, s))
    && (forall j :: 0 <= j < |rows| && Fill(rows[j]) != 0.0 ==> rows[j].symbol in a.quantities)
  }

  lemma MoneyStep(a: Sums, rows: seq<OrderRow>, row: OrderRow)
    requires MoneyOk(a, rows)
    ensures MoneyOk(AddFill(a, row), rows + [row])
  {
    FrontAppend(rows, row);
  }

  lemma MissingStep(a: Sums, rows: seq<OrderRow>, row: OrderRow)
    requires MissingOk(a, rows)
    ensures MissingOk(AddFill(a, row), rows + [row])
  {
    FrontAppend(rows, row);
    AddRow(rows, row);
  }

  lemma QuantitiesStep(a: Sums, rows: seq<OrderRow>, row: OrderRow)
    requires QuantitiesOk(a, rows)
    ensures QuantitiesOk(AddFill(a, row), rows + [row])
  {
    var b := AddFill(a, row);
    forall s ensures Net(rows + [row], s) == Quantity(b.quantities, s) {
      assert Net(rows, s) == Quantity(a.quantities, s);
      NetAppend(rows, row, s);
      AddFillQuantity(a, row, s);
    }
  }

  lemma NetAppend(rows: seq<OrderRow>, row: OrderRow, s: Symbol)
    ensures Net(rows + [row], s) == Net(rows, s) + if row.symbol == s then SignedFill(row) else 0.0
  {
    FrontAppend(rows, row);
  }

  lemma AddFillQuantity(a: Sums, row: OrderRow, s: Symbol)
    ensures Quantity(AddFill(a, row).quantities, s)
            == Quantity(a.quantities, s) + if row.symbol == s then SignedFill(row) else 0.0
  {
  }

  ghost predicate SumsOk(a: Sums, rows: seq<OrderRow>) { MoneyOk(a, rows) && MissingOk(a, rows) && QuantitiesOk(a, rows) }

  lemma SumsStep(a: Sums, rows: seq<OrderRow>, i: nat)
    requires i < |rows| && SumsOk(a, rows[..i])
    ensures SumsOk(AddFill(a, rows[i]), rows[..i + 1])
  {
    assert rows[..i + 1] == rows[..i] + [rows[i]];
    MoneyStep(a, rows[..i], rows[i]);
    MissingStep(a, rows[..i], rows[i]);
    QuantitiesStep(a, rows[..i], rows[i]);
  }

  method Economics(rows: seq<OrderRow>, marks: Marks) returns (r: Report)
    ensures Reports(r, rows, marks)
  {
    var a := NO_SUMS;
    for i := 0 to |rows|
      invariant SumsOk(a, rows[..i])
    {
      SumsStep(a, rows, i);
      a := AddFill(a, rows[i]);
    }
    assert rows[..|rows|] == rows;
    r := CloseSums(a, marks, rows);
  }

  function CloseReport(a: Sums, marks: Marks, marked: real): Report {
    var missing := set s | s in a.quantities && a.quantities[s] != 0.0 && s !in marks;
    var valued := missing == {} && a.unvalued == [];
    var pnl := a.cash + marked;
    Report(
      map s | s in a.quantities && a.quantities[s] != 0.0 :: a.quantities[s], missing, a.unvalued,
      if valued then Some(pnl) else None, if valued then Some(pnl - a.fees - a.omissions) else None,
      if a.entryMissing then None else Some(a.entered), if a.exitMissing then None else Some(a.exited),
      if a.exitMissing then None else Some(a.fees), if a.unvalued != [] then None else Some(a.omissions))
  }

  lemma ClosedPositions(a: Sums, rows: seq<OrderRow>, marks: Marks, marked: real)
    requires QuantitiesOk(a, rows)
    ensures ReportsPositions(CloseReport(a, marks, marked), rows, marks)
  {
    forall s ensures Net(rows, s) == Quantity(a.quantities, s) {}
  }

  lemma ClosedMoney(a: Sums, rows: seq<OrderRow>, marks: Marks, marked: real, missing: set<Symbol>, r: Report)
    requires MoneyOk(a, rows) && MissingOk(a, rows) && marked == MarkedValue(rows, marks)
    requires (missing == {} <==> AllMarked(rows, marks)) && r == CloseReport(a, marks, marked) && r.missing == missing
    ensures ReportsMoney(r, rows, marks)
  {
  }

  method CloseSums(a: Sums, marks: Marks, ghost rows: seq<OrderRow>) returns (r: Report)
    requires SumsOk(a, rows)
    ensures Reports(r, rows, marks)
  {
    var marked := SumMarks(a.order, a.quantities, marks);
    MarkedLoop(rows, a.order, a.quantities, marks);
    r := CloseReport(a, marks, marked);
    ClosedPositions(a, rows, marks, marked);
    ValuedWhen(rows, r.missing, marks);
    ClosedMoney(a, rows, marks, marked, r.missing, r);
  }

  method SumMarks(order: seq<Symbol>, quantities: map<Symbol, real>, marks: Marks) returns (sum: real)
    requires forall s :: s in order ==> s in quantities
    ensures sum == WeightedSum(order, s => Quantity(quantities, s), marks)
  {
    sum := 0.0;
    ghost var q := s => Quantity(quantities, s);
    var k := |order|;
    while k > 0
      invariant 0 <= k <= |order|
      invariant sum == WeightedSum(order[k..], q, marks)
    {
      k := k - 1;
      var s := order[k];
      assert order[k..][1..] == order[k + 1..];
      sum := sum + quantities[s] * MarkOf(marks, s);
    }
    assert order[0..] == order;
  }

  lemma AddRow(rows: seq<OrderRow>, row: OrderRow)
    ensures AllPriced(rows + [row]) <==> AllPriced(rows) && Priced(row)
    ensures forall side :: PricedSide(rows + [row], side) <==> PricedSide(rows, side) && (row.side == side ==> Priced(row))
  {
    var all := rows + [row];
    assert all[|rows|] == row;
    assert forall i :: 0 <= i < |rows| ==> all[i] == rows[i];
  }

  lemma ValuedWhen(rows: seq<OrderRow>, missing: set<Symbol>, marks: Marks)
    requires forall s :: s in missing <==> Net(rows, s) != 0.0 && s !in marks
    ensures missing == {} <==> AllMarked(rows, marks)
  {
    if missing != {} { var s :| s in missing; }
  }

  lemma MarkedLoop(rows: seq<OrderRow>, order: seq<Symbol>, quantities: map<Symbol, real>, marks: Marks)
    requires Distinct(order) && (forall s :: s in order <==> s in quantities)
    requires forall s :: Net(rows, s) == Quantity(quantities, s)
    requires forall j :: 0 <= j < |rows| && Fill(rows[j]) != 0.0 ==> rows[j].symbol in quantities
    ensures WeightedSum(order, s => Quantity(quantities, s), marks) == MarkedValue(rows, marks)
  {
    NetsMarkLikeFills(rows, order, marks);
    WeightedSumSame(order, NetOf(rows), s => Quantity(quantities, s), marks);
  }
}
