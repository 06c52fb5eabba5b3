/** Account-wide loss limits: a running flat-point recurrence, boundary equities and a saved ratchet. */
module AccountRisk {
  import opened Orders
  import opened Ledger
  import opened AllocationLedgers

  // ---- The running recurrence ----

  function PriceOrZero(row: OrderRow): real { if FillPrice(row).Some? then FillPrice(row).value else 0.0 }

  function SellCharge(quantity: real, price: real): real {
    var charge := quantity * price * SELL_VALUE_RATE + quantity * SELL_SHARE_RATE;
    if charge > SELL_MINIMUM then charge else SELL_MINIMUM
  }

  /** What one filled row does to the running cash. */
  function CashStep(row: OrderRow): real {
    var price := PriceOrZero(row);
    if Fill(row) == 0.0 then 0.0
    else -(SignedFill(row) * price + Fill(row) * price * RESIDUAL_RATE)
         - (if row.side.Sell? then SellCharge(Fill(row), price) else 0.0)
  }

  ghost predicate AllFlat(rows: seq<OrderRow>) { forall s :: Net(rows, s) == 0.0 }

  /** The peak over flat points: only a row with a fill can update it. */
  ghost function PeakFrom(rows: seq<OrderRow>, start: real, base: real): real {
    if rows == [] then start
    else
      var before := PeakFrom(Front(rows), start, base);
      var here := base + Total(rows, CashStep);
      if Fill(Last(rows)) != 0.0 && AllFlat(rows) && here > before then here else before
  }

  method RunningPeak(rows: seq<OrderRow>, start: real, base: real) returns (peak: real)
    ensures peak == PeakFrom(rows, start, base)
  {
    peak := start;
    var cash := base;
    var inventory: map<Symbol, real> := map[];
    for i := 0 to |rows|
      invariant peak == PeakFrom(rows[..i], start, base)
      invariant cash == base + Total(rows[..i], CashStep)
      invariant forall s :: Net(rows[..i], s) == Quantity(inventory, s)
    {
      var row := rows[i];
      assert Front(rows[..i + 1]) == rows[..i] && Last(rows[..i + 1]) == row;
      ghost var before := inventory;
      if Fill(row) == 0.0 { continue; }
      inventory := inventory[row.symbol := Quantity(inventory, row.symbol) + SignedFill(row)];
      cash := cash + CashStep(row);
      forall s ensures Net(rows[..i + 1], s) == Quantity(inventory, s) {
        assert Net(rows[..i], s) == Quantity(before, s);
      }
      FlatWhenEmpty(rows[..i + 1], inventory);
      if (forall s :: s in inventory ==> inventory[s] == 0.0) && cash > peak { peak := cash; }
    }
    assert rows[..|rows|] == rows;
  }

  lemma FlatWhenEmpty(rows: seq<OrderRow>, inventory: map<Symbol, real>)
    requires forall s :: Net(rows, s) == Quantity(inventory, s)
    ensures AllFlat(rows) <==> forall s :: s in inventory ==> inventory[s] == 0.0
  {
    if AllFlat(rows) {
      forall s | s in inventory ensures inventory[s] == 0.0 { assert Net(rows, s) == 0.0; }
    }
  }

  // ---- It refines the ledger ----

  ghost function SymbolOrder(rows: seq<OrderRow>): (order: seq<Symbol>)
    ensures Distinct(order)
    ensures forall i :: 0 <= i < |rows| ==> rows[i].symbol in order
  {
    if rows == [] then []
    else
      var before := SymbolOrder(Front(rows));
      assert forall i :: 0 <= i < |rows| - 1 ==> rows[i] == Front(rows)[i];
      if Last(rows).symbol in before then before else before + [Last(rows).symbol]
  }

  lemma FlatIsWorthNothing(rows: seq<OrderRow>, marks: Marks)
    requires AllFlat(rows)
    ensures MarkedValue(rows, marks) == 0.0
  {
    var order := SymbolOrder(rows);
    NetsMarkLikeFills(rows, order, marks);
    WeightedSumZero(order, marks);
    WeightedSumSame(order, s => Net(rows, s), s => 0.0, marks);
  }

  lemma StepIsLedgerRow(row: OrderRow)
    requires Priced(row)
    ensures CashStep(row) == Cash(row) - Fee(row) - Residual(row)
  {
    if Fill(row) != 0.0 {
      assert Notional(row) == Fill(row) * PriceOrZero(row);
    }
  }

  lemma {:induction false} StepsAreLedger(rows: seq<OrderRow>)
    requires AllPriced(rows)
    ensures Total(rows, CashStep) == Total(rows, Cash) - Total(rows, Fee) - Total(rows, Residual)
  {
    if rows != [] {
      StepsAreLedger(Front(rows));
      assert rows[|rows| - 1] == Last(rows);
      StepIsLedgerRow(Last(rows));
    }
  }

  /** At a flat point the running cash is the economic P&L of the full ledger, whatever the marks. */
  lemma RecurrenceRefinesLedger(rows: seq<OrderRow>, marks: Marks)
    requires AllPriced(rows) && AllFlat(rows)
    ensures Valued(rows, marks)
    ensures EconomicPnl(rows, marks) == Total(rows, CashStep)
  {
    StepsAreLedger(rows);
    FlatIsWorthNothing(rows, marks);
  }

  ghost predicate FlatPoint(rows: seq<OrderRow>, n: int) {
    0 < n <= |rows| && Fill(rows[n - 1]) != 0.0 && AllFlat(rows[..n])
  }

  /** The recurrence returns the greatest of its start and the ledger's economic equity at every flat
      point of the history, and attains it. */
  lemma {:induction false} PeakIsGreatestFlatEquity(rows: seq<OrderRow>, start: real, base: real, marks: Marks)
    requires AllPriced(rows)
    ensures start <= PeakFrom(rows, start, base)
    ensures forall n :: FlatPoint(rows, n) ==> base + EconomicPnl(rows[..n], marks) <= PeakFrom(rows, start, base)
    ensures PeakFrom(rows, start, base) == start
         || exists n :: FlatPoint(rows, n) && PeakFrom(rows, start, base) == base + EconomicPnl(rows[..n], marks)
  {
    if rows != [] {
      var front := Front(rows);
      PeakIsGreatestFlatEquity(front, start, base, marks);
      assert rows[..|rows|] == rows;
      if AllFlat(rows) { RecurrenceRefinesLedger(rows, marks); }
      forall n | FlatPoint(rows, n) ensures base + EconomicPnl(rows[..n], marks) <= PeakFrom(rows, start, base) {
        if n < |rows| {
          assert front[..n] == rows[..n];
          assert FlatPoint(front, n);
        }
      }
      if PeakFrom(rows, start, base) != PeakFrom(front, start, base) {
        assert FlatPoint(rows, |rows|);
      } else if PeakFrom(front, start, base) != start {
        var n :| FlatPoint(front, n) && PeakFrom(front, start, base) == base + EconomicPnl(front[..n], marks);
        assert front[..n] == rows[..n];
        assert FlatPoint(rows, n);
      }
    }
  }

  // ---- Boundary equities ----

  /** None where the code refuses to value the boundary: a fill without an exact timestamp. */
  function RowsBefore(rows: seq<OrderRow>, boundary: int): Option<seq<OrderRow>> {
    if rows == [] then Some([])
    else
      var row := Last(rows);
      match RowsBefore(Front(rows), boundary)
      case None => None
      case Some(selected) =>
        if row.createdAt >= boundary || Fill(row) == 0.0 then Some(selected)
        else if row.broker.value.filledAt.None? then None
        else if row.broker.value.filledAt.value < boundary then Some(selected + [row])
        else Some(selected)
  }

  ghost function EquityOf(rows: seq<OrderRow>, marks: Marks, base: real): Option<real> {
    var confirmed := ConfirmedRows(rows);
    if Valued(confirmed, marks) then Some(base + EconomicPnl(confirmed, marks)) else None
  }

  ghost function EquityBefore(rows: seq<OrderRow>, boundary: int, capital: real, offset: Option<real>): Option<real> {
    var selected := RowsBefore(rows, boundary);
    if selected.None? || offset.None? then None
    else EquityOf(selected.value, map[], capital + offset.value)
  }

  /** A boundary equity exists only when everything filled before the boundary was closed before it;
      then it is the running cash of those rows. */
  lemma BoundaryEquityIsFlat(rows: seq<OrderRow>, boundary: int, capital: real, offset: Option<real>)
    requires EquityBefore(rows, boundary, capital, offset).Some?
    ensures var closed := ConfirmedRows(RowsBefore(rows, boundary).value);
      && AllFlat(closed)
      && EquityBefore(rows, boundary, capital, offset).value == capital + offset.value + Total(closed, CashStep)
  {
    var closed := ConfirmedRows(RowsBefore(rows, boundary).value);
    forall s ensures Net(closed, s) == 0.0 {}
    RecurrenceRefinesLedger(closed, map[]);
  }

  // ---- The saved state ----

  datatype Settings = Settings(equity: real, daily: real, weekly: real, drawdown: real, operator: bool)

  /** Imported broker history: its total and peak P&L, the orders it covers and its P&L before a time. */
  datatype Baseline = Baseline(economicPnl: real, peakPnl: real, covered: set<nat>, before: int -> Option<real>)

  datatype Saved = Saved(capital: real, peak: real, daily: real, weekly: real, drawdown: real)

  datatype Call = Call(
    settings: Settings, rows: seq<OrderRow>, marks: Marks, baseline: Option<Baseline>, day: int, week: int)

  datatype Assessment = Unvalued | Assessed(current: real, dayStart: real, weekStart: real, blocked: bool)

  function Min(a: real, b: real): real { if a < b then a else b }

  function Max(a: real, b: real): real { if a < b then b else a }

  function Uncovered(rows: seq<OrderRow>, baseline: Option<Baseline>): seq<OrderRow> {
    if baseline.None? || rows == [] then rows
    else
      var front := Uncovered(Front(rows), baseline);
      var id := Last(rows).brokerId;
      if id.Some? && id.value in baseline.value.covered then front else front + [Last(rows)]
  }

  function Offset(baseline: Option<Baseline>): real {
    if baseline.Some? then baseline.value.economicPnl else 0.0
  }

  function OffsetBefore(baseline: Option<Baseline>, boundary: int): Option<real> {
    if baseline.Some? then baseline.value.before(boundary) else Some(0.0)
  }

  function Capital(saved: Option<Saved>, settings: Settings): real {
    if saved.Some? then saved.value.capital else settings.equity
  }

  predicate Blocked(state: Saved, current: real, dayStart: real, weekStart: real) {
    current <= dayStart - state.daily || current <= weekStart - state.weekly || current <= state.peak - state.drawdown
  }

  function Ratchet(saved: Option<Saved>, c: Settings, historical: real, current: real, dayStart: real, weekStart: real): Saved {
    var capital := Capital(saved, c);
    Saved(capital,
          Max(Max(Max(Max(if saved.Some? then saved.value.peak else capital, historical), dayStart), weekStart), current),
          Min(if saved.Some? then saved.value.daily else 50.0, c.equity * c.daily),
          Min(if saved.Some? then saved.value.weekly else 50.0, c.equity * c.weekly),
          Min(if saved.Some? then saved.value.drawdown else 150.0, c.equity * c.drawdown))
  }

  ghost function HistoricalPeak(call: Call, capital: real): real {
    var start := if call.baseline.Some? then capital + call.baseline.value.peakPnl else capital;
    PeakFrom(Uncovered(call.rows, call.baseline), start, capital + Offset(call.baseline))
  }

  datatype Readings = Readings(current: Option<real>, dayStart: Option<real>, weekStart: Option<real>)

  ghost function ReadingsOf(call: Call, capital: real): Readings {
    var rows := Uncovered(call.rows, call.baseline);
    Readings(EquityOf(rows, call.marks, capital + Offset(call.baseline)),
             EquityBefore(rows, call.day, capital, OffsetBefore(call.baseline, call.day)),
             EquityBefore(rows, call.week, capital, OffsetBefore(call.baseline, call.week)))
  }

  predicate Unreadable(call: Call, r: Readings) {
    (call.settings.operator && call.baseline.None?) || r.current.None? || r.dayStart.None? || r.weekStart.None?
  }

  /** The saved row and the assessment, once the equities and the historical peak are known. */
  function Judge(saved: Option<Saved>, call: Call, r: Readings, historical: real): (Option<Saved>, Assessment) {
    if Unreadable(call, r) then (saved, Unvalued)
    else
      var state := Ratchet(saved, call.settings, historical, r.current.value, r.dayStart.value, r.weekStart.value);
      (Some(state), Assessed(r.current.value, r.dayStart.value, r.weekStart.value,
                             Blocked(state, r.current.value, r.dayStart.value, r.weekStart.value)))
  }

  ghost function Assess(saved: Option<Saved>, call: Call): (Option<Saved>, Assessment) {
    var capital := Capital(saved, call.settings);
    Judge(saved, call, ReadingsOf(call, capital), HistoricalPeak(call, capital))
  }

  class RiskControl {
    var saved: Option<Saved>

    constructor ()
      ensures saved == None
    {
      saved := None;
    }

    method Equity(rows: seq<OrderRow>, marks: Marks, base: real) returns (equity: Option<real>)
      ensures equity == EquityOf(rows, marks, base)
    {
      var allocation := Allocate(rows, marks);
      var pnl := allocation.aggregate.economicPnl;
      equity := if pnl.Some? then Some(base + pnl.value) else None;
    }

    method Before(rows: seq<OrderRow>, boundary: int, capital: real, offset: Option<real>) returns (equity: Option<real>)
      ensures equity == EquityBefore(rows, boundary, capital, offset)
    {
      var selected := RowsBefore(rows, boundary);
      if selected.None? || offset.None? { return None; }
      equity := Equity(selected.value, map[], capital + offset.value);
    }

    method Read(call: Call, capital: real) returns (r: Readings)
      ensures r == ReadingsOf(call, capital)
    {
      var rows := Uncovered(call.rows, call.baseline);
      var current := Equity(rows, call.marks, capital + Offset(call.baseline));
      var dayStart := Before(rows, call.day, capital, OffsetBefore(call.baseline, call.day));
      var weekStart := Before(rows, call.week, capital, OffsetBefore(call.baseline, call.week));
      r := Readings(current, dayStart, weekStart);
    }

    method Historical(call: Call, capital: real) returns (peak: real)
      ensures peak == HistoricalPeak(call, capital)
    {
      var start := if call.baseline.Some? then capital + call.baseline.value.peakPnl else capital;
      peak := RunningPeak(Uncovered(call.rows, call.baseline), start, capital + Offset(call.baseline));
    }

    /** Rewrites the saved limits, or leaves them when an equity could not be valued. */
    method JudgeInPlace(call: Call, readings: Readings, historical: real) returns (r: Assessment)
      modifies this
      ensures (saved, r) == Judge(old(saved), call, readings, historical)
    {
      if Unreadable(call, readings) { return Unvalued; }
      var current, dayStart, weekStart := readings.current.value, readings.dayStart.value, readings.weekStart.value;
      var state := Ratchet(saved, call.settings, historical, current, dayStart, weekStart);
      saved := Some(state);
      r := Assessed(current, dayStart, weekStart, Blocked(state, current, dayStart, weekStart));
    }

    method AssessInPlace(call: Call) returns (r: Assessment)
      modifies this
      ensures (saved, r) == Assess(old(saved), call)
    {
      var capital := Capital(saved, call.settings);
      var readings := Read(call, capital);
      var historical := Historical(call, capital);
      r := JudgeInPlace(call, readings, historical);
    }
  }

  // ---- The ratchet over any sequence of calls ----

  ghost function SavedAfter(saved: Option<Saved>, calls: seq<Call>): Option<Saved> {
    if calls == [] then saved else Assess(SavedAfter(saved, calls[..|calls| - 1]), calls[|calls| - 1]).0
  }

  ghost predicate Tighter(earlier: Saved, later: Saved) {
    && later.capital == earlier.capital && earlier.peak <= later.peak
    && later.daily <= earlier.daily && later.weekly <= earlier.weekly && later.drawdown <= earlier.drawdown
  }

  /** Whatever the cohorts' settings, marks and histories, the peak never falls and no limit rises. */
  lemma {:induction false} RatchetOnlyTightens(saved: Saved, calls: seq<Call>)
    ensures SavedAfter(Some(saved), calls).Some?
    ensures Tighter(saved, SavedAfter(Some(saved), calls).value)
  {
    if calls != [] { RatchetOnlyTightens(saved, calls[..|calls| - 1]); }
  }

  /** The loss since the day or the week began, or below the saved peak, has reached the limit saved for it. */
  ghost predicate LossReached(state: Saved, current: real, dayStart: real, weekStart: real) {
    || dayStart - current >= state.daily
    || weekStart - current >= state.weekly
    || state.peak - current >= state.drawdown
  }

  /** An equity once blocked at some day and week starts stays blocked at those starts. */
  lemma {:induction false} BlockedStaysBlocked(saved: Saved, calls: seq<Call>, current: real, dayStart: real, weekStart: real)
    requires LossReached(saved, current, dayStart, weekStart)
    ensures SavedAfter(Some(saved), calls).Some?
    ensures LossReached(SavedAfter(Some(saved), calls).value, current, dayStart, weekStart)
  {
    RatchetOnlyTightens(saved, calls);
  }

  /** Every assessment's peak covers the current equity, both boundaries and the ledger's economic
      equity at every flat point of the history. */
  lemma PeakCovers(saved: Option<Saved>, call: Call, n: int)
    requires Assess(saved, call).1.Assessed?
    requires IdsUnique(Uncovered(call.rows, call.baseline))
    ensures var (after, r) := Assess(saved, call);
      && r.current <= after.value.peak && r.dayStart <= after.value.peak && r.weekStart <= after.value.peak
      && (FlatPoint(Uncovered(call.rows, call.baseline), n) ==>
            FlatEquity(call, Capital(saved, call.settings), n) <= after.value.peak)
  {
    var capital := Capital(saved, call.settings);
    assert HistoricalPeak(call, capital) <= Assess(saved, call).0.value.peak;
    var rows := Uncovered(call.rows, call.baseline);
    DistinctRowsAreConfirmed(rows);
    assert AllPriced(rows);
    if FlatPoint(rows, n) { FlatEquityIsBelow(call, capital, n); }
  }

  ghost function FlatEquity(call: Call, capital: real, n: int): real
    requires FlatPoint(Uncovered(call.rows, call.baseline), n)
  {
    capital + Offset(call.baseline) + EconomicPnl(Uncovered(call.rows, call.baseline)[..n], call.marks)
  }

  lemma FlatEquityIsBelow(call: Call, capital: real, n: int)
    requires AllPriced(Uncovered(call.rows, call.baseline)) && FlatPoint(Uncovered(call.rows, call.baseline), n)
    ensures FlatEquity(call, capital, n) <= HistoricalPeak(call, capital)
  {
    var start := if call.baseline.Some? then capital + call.baseline.value.peakPnl else capital;
    PeakIsGreatestFlatEquity(Uncovered(call.rows, call.baseline), start, capital + Offset(call.baseline), call.marks);
  }

  // ---- What one assessment says ----

  /** An assessment blocks exactly when the loss since the day or the week began, or below the saved peak,
      has reached the limit saved for it; a refused one leaves the saved row alone. */
  lemma BlocksAtTheLimits(saved: Option<Saved>, call: Call)
    ensures Assess(saved, call).1.Unvalued? ==> Assess(saved, call).0 == saved
    ensures Assess(saved, call).1.Assessed? ==>
      var (after, r) := Assess(saved, call);
      && after.Some?
      && (r.blocked <==> LossReached(after.value, r.current, r.dayStart, r.weekStart))
  {
  }

  ghost predicate FilledBefore(row: OrderRow, boundary: int) {
    && row.createdAt < boundary && Fill(row) != 0.0
    && row.broker.Some? && row.broker.value.filledAt.Some? && row.broker.value.filledAt.value < boundary
  }

  lemma {:induction false} RowsBeforeAre(rows: seq<OrderRow>, boundary: int, row: OrderRow)
    ensures RowsBefore(rows, boundary).Some? ==>
              (row in RowsBefore(rows, boundary).value <==> row in rows && FilledBefore(row, boundary))
    ensures RowsBefore(rows, boundary).None? <==>
              exists i :: 0 <= i < |rows| && rows[i].createdAt < boundary && Fill(rows[i]) != 0.0
                          && rows[i].broker.value.filledAt.None?
  {
    if rows != [] {
      RowsBeforeAre(Front(rows), boundary, row);
      assert rows == Front(rows) + [Last(rows)];
    }
  }

  lemma {:induction false} UncoveredAre(rows: seq<OrderRow>, baseline: Option<Baseline>, row: OrderRow)
    ensures row in Uncovered(rows, baseline) <==>
              row in rows && (baseline.Some? && row.brokerId.Some? ==> row.brokerId.value !in baseline.value.covered)
  {
    if rows != [] {
      UncoveredAre(Front(rows), baseline, row);
      assert rows == Front(rows) + [Last(rows)];
    }
  }

  /** The equity at a boundary: what the imported history had by then and the cash of the rows filled by
      then, which had all been closed. */
  ghost predicate ClosedEquity(call: Call, capital: real, boundary: int, equity: real) {
    var selected := RowsBefore(Uncovered(call.rows, call.baseline), boundary);
    && selected.Some? && AllFlat(ConfirmedRows(selected.value))
    && (call.baseline.Some? ==> call.baseline.value.before(boundary).Some?)
    && equity == capital + Total(ConfirmedRows(selected.value), CashStep)
                 + (if call.baseline.Some? then call.baseline.value.before(boundary).value else 0.0)
  }

  /** An assessment values the account at its marks, at the start of the day and at the start of the week. */
  lemma AssessedEquities(saved: Option<Saved>, call: Call)
    requires Assess(saved, call).1.Assessed?
    ensures var r := Assess(saved, call).1;
      var capital := if saved.Some? then saved.value.capital else call.settings.equity;
      && ClosedEquity(call, capital, call.day, r.dayStart) && ClosedEquity(call, capital, call.week, r.weekStart)
      && r.current == capital + EconomicPnl(ConfirmedRows(Uncovered(call.rows, call.baseline)), call.marks)
                      + (if call.baseline.Some? then call.baseline.value.economicPnl else 0.0)
      && (call.settings.operator ==> call.baseline.Some?)
  {
    var capital := Capital(saved, call.settings);
    var rows := Uncovered(call.rows, call.baseline);
    BoundaryEquityIsFlat(rows, call.day, capital, OffsetBefore(call.baseline, call.day));
    BoundaryEquityIsFlat(rows, call.week, capital, OffsetBefore(call.baseline, call.week));
  }

  /** The historical peak is the greatest of the capital, with the imported history's peak P&L on top, and of
      the capital with the imported P&L and the ledger's economic P&L at every moment all was closed. */
  lemma HistoricalPeakIs(call: Call, capital: real)
    requires AllPriced(Uncovered(call.rows, call.baseline))
    ensures var rows, peak := Uncovered(call.rows, call.baseline), HistoricalPeak(call, capital);
      var start := capital + (if call.baseline.Some? then call.baseline.value.peakPnl else 0.0);
      var base := capital + (if call.baseline.Some? then call.baseline.value.economicPnl else 0.0);
      && start <= peak && (forall n :: FlatPoint(rows, n) ==> base + EconomicPnl(rows[..n], call.marks) <= peak)
      && (peak == start || exists n :: FlatPoint(rows, n) && peak == base + EconomicPnl(rows[..n], call.marks))
  {
    var start := if call.baseline.Some? then capital + call.baseline.value.peakPnl else capital;
    PeakIsGreatestFlatEquity(Uncovered(call.rows, call.baseline), start, capital + Offset(call.baseline), call.marks);
  }

  // ---- What the saved row holds after any calls ----

  /** The n-th of the calls was assessed, that is, it was not refused. */
  ghost predicate Counted(calls: seq<Call>, n: int) {
    0 <= n < |calls| && Assess(SavedAfter(None, calls[..n]), calls[n]).1.Assessed?
  }

  datatype Limit = Daily | Weekly | Drawdown

  function Initially(l: Limit): real { if l.Drawdown? then 150.0 else 50.0 }

  function Own(l: Limit, c: Settings): real {
    match l
    case Daily => c.equity * c.daily
    case Weekly => c.equity * c.weekly
    case Drawdown => c.equity * c.drawdown
  }

  function Value(l: Limit, saved: Option<Saved>): real {
    if saved.None? then Initially(l)
    else match l
      case Daily => saved.value.daily
      case Weekly => saved.value.weekly
      case Drawdown => saved.value.drawdown
  }

  ghost predicate LeastOver(limit: real, l: Limit, calls: seq<Call>) {
    && limit <= Initially(l) && (forall n :: Counted(calls, n) ==> limit <= Own(l, calls[n].settings))
    && (limit == Initially(l) || exists n :: Counted(calls, n) && limit == Own(l, calls[n].settings))
  }

  lemma CountedFront(calls: seq<Call>, n: int)
    requires calls != []
    ensures Counted(calls, n) <==> Counted(calls[..|calls| - 1], n) || (n == |calls| - 1 && Counted(calls, n))
  {
    if 0 <= n < |calls| - 1 { assert calls[..|calls| - 1][..n] == calls[..n]; }
  }

  lemma LeastOverStep(before: real, after: real, l: Limit, calls: seq<Call>)
    requires calls != [] && LeastOver(before, l, calls[..|calls| - 1])
    requires after == if Counted(calls, |calls| - 1) then Min(before, Own(l, calls[|calls| - 1].settings)) else before
    ensures LeastOver(after, l, calls)
  {
    var front := calls[..|calls| - 1];
    forall n ensures Counted(calls, n) <==> Counted(front, n) || (n == |calls| - 1 && Counted(calls, n)) { CountedFront(calls, n); }
    if after == before && after != Initially(l) {
      var n :| Counted(front, n) && before == Own(l, front[n].settings);
      assert Counted(calls, n);
    }
  }

  lemma JudgeTightens(saved: Option<Saved>, call: Call, readings: Readings, historical: real, l: Limit)
    ensures var (after, r) := Judge(saved, call, readings, historical);
      Value(l, after) == if r.Assessed? then Min(Value(l, saved), Own(l, call.settings)) else Value(l, saved)
  {
  }

  lemma JudgePeak(saved: Option<Saved>, call: Call, readings: Readings, historical: real)
    requires Judge(saved, call, readings, historical).1.Assessed?
    ensures var (after, r) := Judge(saved, call, readings, historical);
      var before := if saved.Some? then saved.value.peak else Capital(saved, call.settings);
      && before <= after.value.peak && historical <= after.value.peak
      && r.dayStart <= after.value.peak && r.weekStart <= after.value.peak && r.current <= after.value.peak
      && after.value.peak in {before, historical, r.dayStart, r.weekStart, r.current}
  {
  }

  lemma AssessTightens(saved: Option<Saved>, call: Call, l: Limit)
    ensures var (after, r) := Assess(saved, call);
      Value(l, after) == if r.Assessed? then Min(Value(l, saved), Own(l, call.settings)) else Value(l, saved)
  {
    var capital := Capital(saved, call.settings);
    JudgeTightens(saved, call, ReadingsOf(call, capital), HistoricalPeak(call, capital), l);
  }

  /** After any calls from no saved row, each limit is the least of its initial amount and its own fraction
      of the equity over all assessed calls. */
  lemma {:induction false} LimitIsLeast(calls: seq<Call>, l: Limit)
    ensures LeastOver(Value(l, SavedAfter(None, calls)), l, calls)
    decreases |calls|
  {
    if calls != [] {
      var front, last := calls[..|calls| - 1], calls[|calls| - 1];
      LimitIsLeast(front, l);
      AssessTightens(SavedAfter(None, front), last, l);
      LeastOverStep(Value(l, SavedAfter(None, front)), Value(l, SavedAfter(None, calls)), l, calls);
    }
  }

  /** The saved row exists as soon as one call was assessed; its capital is the equity of the first. */
  ghost predicate First(calls: seq<Call>, n: int) { Counted(calls, n) && forall m :: Counted(calls, m) ==> n <= m }

  lemma {:induction false} CapitalIsFirst(calls: seq<Call>)
    ensures var saved := SavedAfter(None, calls);
      if saved.None? then forall n :: !Counted(calls, n)
      else exists n :: First(calls, n) && saved.value.capital == calls[n].settings.equity
    decreases |calls|
  {
    if calls != [] {
      var front, last := calls[..|calls| - 1], |calls| - 1;
      CapitalIsFirst(front);
      forall n ensures Counted(calls, n) <==> Counted(front, n) || (n == last && Counted(calls, n)) { CountedFront(calls, n); }
      if SavedAfter(None, front).Some? {
        var n :| First(front, n) && SavedAfter(None, front).value.capital == front[n].settings.equity;
        assert First(calls, n);
      } else if Counted(calls, last) {
        assert First(calls, last);
      }
    }
  }

  /** An equity that an assessment looked at. */
  ghost predicate Looked(before: Option<Saved>, call: Call, x: real) {
    var r := Assess(before, call).1;
    && r.Assessed?
    && x in {r.current, r.dayStart, r.weekStart, HistoricalPeak(call, Capital(before, call.settings))}
  }

  ghost predicate Seen(calls: seq<Call>, n: int, x: real) {
    0 <= n < |calls| && Looked(SavedAfter(None, calls[..n]), calls[n], x)
  }

  /** The new peak is the greatest of the old one, or the capital, and what was looked at. */
  ghost predicate PeakRises(before: Option<Saved>, call: Call, after: Saved) {
    var floor := if before.Some? then before.value.peak else after.capital;
    && (before.Some? ==> after.capital == before.value.capital)
    && floor <= after.peak && (forall x :: Looked(before, call, x) ==> x <= after.peak)
    && (after.peak == floor || Looked(before, call, after.peak))
  }

  lemma AssessRaisesPeak(before: Option<Saved>, call: Call)
    requires Assess(before, call).1.Assessed?
    ensures PeakRises(before, call, Assess(before, call).0.value)
  {
    var capital := Capital(before, call.settings);
    JudgePeak(before, call, ReadingsOf(call, capital), HistoricalPeak(call, capital));
  }

  lemma SeenFront(calls: seq<Call>, n: int, x: real)
    requires calls != []
    ensures Seen(calls, n, x) <==> Seen(calls[..|calls| - 1], n, x) || (n == |calls| - 1 && Seen(calls, n, x))
  {
    if 0 <= n < |calls| - 1 { assert calls[..|calls| - 1][..n] == calls[..n]; }
  }

  ghost predicate PeakOver(saved: Option<Saved>, calls: seq<Call>) {
    saved.Some? ==>
      && saved.value.capital <= saved.value.peak
      && (forall n, x :: Seen(calls, n, x) ==> x <= saved.value.peak)
      && (saved.value.peak == saved.value.capital || exists n :: Seen(calls, n, saved.value.peak))
  }

  lemma PeakSameStep(saved: Option<Saved>, calls: seq<Call>)
    requires calls != [] && PeakOver(saved, calls[..|calls| - 1]) && !Counted(calls, |calls| - 1)
    ensures PeakOver(saved, calls)
  {
    var front := calls[..|calls| - 1];
    forall n, x ensures Seen(calls, n, x) <==> Seen(front, n, x) { SeenFront(calls, n, x); }
    if saved.Some? && saved.value.peak != saved.value.capital {
      var n :| Seen(front, n, saved.value.peak);
      assert Seen(calls, n, saved.value.peak);
    }
  }

  lemma PeakStep(front: seq<Call>, call: Call, after: Saved)
    requires PeakOver(SavedAfter(None, front), front) && PeakRises(SavedAfter(None, front), call, after)
    requires SavedAfter(None, front).None? ==> forall n, x :: !Seen(front, n, x)
    ensures PeakOver(Some(after), front + [call])
  {
    var calls, last := front + [call], |front|;
    assert calls[..last] == front;
    forall n, x | Seen(calls, n, x) ensures x <= after.peak { SeenFront(calls, n, x); }
    if after.peak != after.capital {
      if Looked(SavedAfter(None, front), call, after.peak) {
        assert Seen(calls, last, after.peak);
      } else {
        var n :| Seen(front, n, after.peak);
        SeenFront(calls, n, after.peak);
      }
    }
  }

  lemma NoneSeen(calls: seq<Call>, n: int, x: real)
    requires SavedAfter(None, calls).None?
    ensures !Seen(calls, n, x)
  {
    CapitalIsFirst(calls);
    assert Seen(calls, n, x) ==> Counted(calls, n);
  }

  /** The saved peak is the greatest of the capital and every equity any assessment looked at. */
  lemma {:induction false} PeakIsGreatestSeen(calls: seq<Call>)
    ensures PeakOver(SavedAfter(None, calls), calls)
    decreases |calls|
  {
    if calls != [] {
      var front := calls[..|calls| - 1];
      PeakIsGreatestSeen(front);
      if Counted(calls, |calls| - 1) {
        var before, call := SavedAfter(None, front), calls[|calls| - 1];
        AssessRaisesPeak(before, call);
        if before.None? { forall n, x ensures !Seen(front, n, x) { NoneSeen(front, n, x); } }
        PeakStep(front, call, Assess(before, call).0.value);
        assert front + [call] == calls;
      } else {
        BlocksAtTheLimits(SavedAfter(None, front), calls[|calls| - 1]);
        PeakSameStep(SavedAfter(None, front), calls);
      }
    }
  }
}
