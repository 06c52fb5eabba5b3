/** The fake-money broker: costs, idempotent orders, marks, and the accounting identity. */
module PaperBroker {
  import opened Orders

  const DAY := 86_400

  datatype Config = Config(starting: real, slippageBps: real, spreadBps: real, commissionBps: real, participation: real)

  ghost predicate ConfigOk(c: Config) {
    && c.starting > 0.0 && 0.0 <= c.slippageBps <= 100.0 && 0.0 <= c.spreadBps <= 100.0
    && 0.0 <= c.commissionBps <= 100.0 && 0.0 < c.participation <= 1.0
  }

  datatype Bar = Bar(symbol: Symbol, at: int, close: real, volume: real)

  ghost predicate BarOk(bar: Bar) { bar.close > 0.0 && bar.volume >= 0.0 }

  /** The decision an order belongs to; the client order id is a hash of it. */
  datatype DecisionKey = DecisionKey(strategy: string, symbol: Symbol, generatedAt: int, weight: real)

  datatype PaperOrder = PaperOrder(key: DecisionKey, symbol: Symbol, side: Side, quantity: real, market: bool)

  datatype PaperFill = PaperFill(
    key: DecisionKey, symbol: Symbol, side: Side, quantity: real, price: real, commission: real, at: int)

  datatype PositionState = PositionState(quantity: real, average: real, realized: real, commission: real)

  const NO_POSITION := PositionState(0.0, 0.0, 0.0, 0.0)

  datatype State = State(
    cash: real, positions: map<Symbol, PositionState>, marks: map<Symbol, real>,
    fills: map<DecisionKey, PaperFill>, session: Option<int>, dayStart: real, high: real)

  function Initial(c: Config): State { State(c.starting, map[], map[], map[], None, c.starting, c.starting) }

  // ---- Rounding ----

  /** Half-up to 1/scale, ties away from zero. */
  function RoundHalfUp(x: real, scale: real): real
    requires scale > 0.0
  {
    if x >= 0.0 then (x * scale + 0.5).Floor as real / scale else -((-x * scale + 0.5).Floor as real / scale)
  }

  function Money(x: real): real { RoundHalfUp(x, 10000.0) }

  // ---- Sums over positions ----

  ghost function SumOf(m: map<Symbol, PositionState>, f: (Symbol, PositionState) -> real): real {
    if m == map[] then 0.0 else var k :| k in m; f(k, m[k]) + SumOf(m - {k}, f)
  }

  lemma {:induction false} SumOfRemove(m: map<Symbol, PositionState>, k: Symbol, f: (Symbol, PositionState) -> real)
    requires k in m
    ensures SumOf(m, f) == f(k, m[k]) + SumOf(m - {k}, f)
    decreases |m|
  {
    var j :| j in m && SumOf(m, f) == f(j, m[j]) + SumOf(m - {j}, f);
    if j != k {
      SumOfRemove(m - {j}, k, f);
      SumOfRemove(m - {k}, j, f);
      assert m - {j} - {k} == m - {k} - {j};
    }
  }

  lemma SumOfUpdate(m: map<Symbol, PositionState>, k: Symbol, p: PositionState, f: (Symbol, PositionState) -> real)
    ensures SumOf(m[k := p], f) == SumOf(m, f) + f(k, p) - if k in m then f(k, m[k]) else 0.0
  {
    SumOfRemove(m[k := p], k, f);
    if k in m {
      SumOfRemove(m, k, f);
      assert m[k := p] - {k} == m - {k};
    } else {
      assert m[k := p] - {k} == m;
    }
  }

  lemma {:induction false} SumOfSame(m: map<Symbol, PositionState>, f: (Symbol, PositionState) -> real, g: (Symbol, PositionState) -> real)
    requires forall k :: k in m ==> f(k, m[k]) == g(k, m[k])
    ensures SumOf(m, f) == SumOf(m, g)
    decreases |m|
  {
    if m != map[] {
      var k :| k in m;
      SumOfRemove(m, k, f);
      SumOfRemove(m, k, g);
      SumOfSame(m - {k}, f, g);
    }
  }

  function WorthAt(marks: map<Symbol, real>, k: Symbol, p: PositionState): real {
    p.quantity * (if k in marks then marks[k] else p.average)
  }

  ghost function Worth(s: State): (Symbol, PositionState) -> real { (k, p) => WorthAt(s.marks, k, p) }

  ghost function Equity(s: State): real { s.cash + SumOf(s.positions, Worth(s)) }

  // ---- Marking ----

  ghost function Mark(s: State, bar: Bar): State {
    var prior := Equity(s);
    var day := bar.at / DAY;
    var dated := if s.session == Some(day) then s else s.(session := Some(day), dayStart := prior);
    var marked := dated.(marks := s.marks[bar.symbol := bar.close]);
    var equity := Equity(marked);
    marked.(high := if s.high < equity then equity else s.high)
  }

  // ---- Submitting ----

  datatype Refusal = LimitOrder | WrongSymbol | Short | NoLiquidity | NoCash | InvalidFill

  datatype SubmitResult = Executed(fill: PaperFill) | Raised(why: Refusal)

  /** What slippage and half the spread do to the close. */
  function Multiplier(c: Config, side: Side): real {
    var cost := c.slippageBps / 10000.0 + c.spreadBps / 20000.0;
    if side.Buy? then 1.0 + cost else 1.0 - cost
  }

  function PriceFrom(close: real, multiplier: real): real { RoundHalfUp(close * multiplier, 1000000.0) }

  function FillPrice(c: Config, order: PaperOrder, bar: Bar): real { PriceFrom(bar.close, Multiplier(c, order.side)) }

  /** The whole shares a bar's volume lets one order take. */
  function Participating(volume: real, participation: real): int { (volume * participation).Floor }

  function FillQuantity(c: Config, order: PaperOrder, bar: Bar): real {
    var available := Participating(bar.volume, c.participation) as real;
    if order.quantity < available then order.quantity else available
  }

  function BasisPoints(amount: real, bps: real): real { amount * bps / 10000.0 }

  function Commission(c: Config, notional: real): real { Money(BasisPoints(notional, c.commissionBps)) }

  function Bought(p: PositionState, quantity: real, price: real, commission: real): PositionState
    requires p.quantity + quantity != 0.0
  {
    p.(quantity := p.quantity + quantity,
       average := (p.quantity * p.average + price * quantity) / (p.quantity + quantity),
       commission := p.commission + commission)
  }

  function Sold(p: PositionState, quantity: real, price: real, commission: real): PositionState
    requires p.quantity != 0.0
  {
    var share := p.commission * quantity / p.quantity;
    var left := p.quantity - quantity;
    PositionState(left, if left == 0.0 then 0.0 else p.average,
                  p.realized + (price - p.average) * quantity - commission - share,
                  if left == 0.0 then 0.0 else p.commission - share)
  }

  /** Looking a symbol up creates its position, even when the order is then refused. */
  function Lookup(s: State, symbol: Symbol): State {
    if symbol in s.positions then s else s.(positions := s.positions[symbol := NO_POSITION])
  }

  function Buying(s: State, symbol: Symbol, quantity: real, price: real, commission: real): State
    requires symbol in s.positions && s.positions[symbol].quantity + quantity != 0.0
  {
    s.(cash := s.cash - (price * quantity + commission),
       positions := s.positions[symbol := Bought(s.positions[symbol], quantity, price, commission)])
  }

  function Selling(s: State, symbol: Symbol, quantity: real, price: real, commission: real): State
    requires symbol in s.positions && s.positions[symbol].quantity != 0.0
  {
    s.(cash := s.cash + (price * quantity - commission),
       positions := s.positions[symbol := Sold(s.positions[symbol], quantity, price, commission)])
  }

  function FillOf(c: Config, order: PaperOrder, bar: Bar): PaperFill {
    FillAt(c, order, bar.at, FillQuantity(c, order, bar), FillPrice(c, order, bar))
  }

  function FillAt(c: Config, order: PaperOrder, at: int, quantity: real, price: real): PaperFill {
    PaperFill(order.key, order.symbol, order.side, quantity, price, Commission(c, price * quantity), at)
  }

  /** The checks after the position lookup, in order. */
  function Refuses(s: State, order: PaperOrder, fill: PaperFill): Option<Refusal>
    requires order.symbol in s.positions
  {
    if order.side.Sell? && order.quantity > s.positions[order.symbol].quantity then Some(Short)
    else if fill.quantity <= 0.0 then Some(NoLiquidity)
    else if order.side.Buy? && fill.price * fill.quantity + fill.commission > s.cash then Some(NoCash)
    else None
  }

  function Execute(s: State, fill: PaperFill): State
    requires NonNegative(s) && fill.symbol in s.positions && fill.quantity > 0.0
    requires fill.side.Sell? ==> fill.quantity <= s.positions[fill.symbol].quantity
  {
    if fill.side.Buy? then Buying(s, fill.symbol, fill.quantity, fill.price, fill.commission)
    else Selling(s, fill.symbol, fill.quantity, fill.price, fill.commission)
  }

  /** What follows the position lookup. */
  ghost function FillUpTo(s: State, order: PaperOrder, fill: PaperFill, bar: Bar): (State, SubmitResult)
    requires NonNegative(s) && order.symbol in s.positions && fill.symbol == order.symbol && fill.side == order.side
    requires fill.quantity <= order.quantity
  {
    var refusal := Refuses(s, order, fill);
    if refusal.Some? then (s, Raised(refusal.value))
    // The fill record requires a positive price; by then the position has changed.
    else if fill.price <= 0.0 then (Execute(s, fill), Raised(InvalidFill))
    else (Mark(Execute(s, fill).(fills := s.fills[order.key := fill]), bar), Executed(fill))
  }

  ghost function Submit(c: Config, s: State, order: PaperOrder, bar: Bar): (State, SubmitResult)
    requires NonNegative(s)
  {
    if !order.market then (s, Raised(LimitOrder))
    else if order.key in s.fills then (s, Executed(s.fills[order.key]))
    else if order.symbol != bar.symbol then (s, Raised(WrongSymbol))
    else FillUpTo(Lookup(s, order.symbol), order, FillOf(c, order, bar), bar)
  }

  // ---- The accounting identity ----

  predicate NonNegative(s: State) {
    && s.cash >= 0.0
    && forall k :: k in s.positions ==>
         s.positions[k].quantity >= 0.0 && s.positions[k].average >= 0.0 && s.positions[k].commission >= 0.0
  }

  ghost function CostBasis(s: State): real { SumOf(s.positions, (k, p: PositionState) => p.quantity * p.average) }

  ghost function EntryCommissions(s: State): real { SumOf(s.positions, (k, p: PositionState) => p.commission) }

  ghost function Realized(s: State): real { SumOf(s.positions, (k, p: PositionState) => p.realized) }

  ghost predicate Balanced(c: Config, s: State) {
    s.cash + CostBasis(s) + EntryCommissions(s) == c.starting + Realized(s)
  }

  ghost predicate AccountOk(c: Config, s: State) { NonNegative(s) && Balanced(c, s) }

  lemma RoundedCentMax(x: real)
    requires x >= 0.0
    ensures 0.0 <= Money(x) <= x + 0.00005
    ensures x < 0.00005 ==> Money(x) == 0.0
  {
  }

  /** Half-up rounding never turns a commission of at most one percent into more than the notional. */
  lemma CommissionBelowNotional(c: Config, notional: real)
    requires ConfigOk(c) && notional >= 0.0
    ensures 0.0 <= Commission(c, notional) <= notional
  {
    BasisPointsBelow(notional, c.commissionBps);
    RoundedCentMax(BasisPoints(notional, c.commissionBps));
  }

  lemma BasisPointsBelow(amount: real, bps: real)
    requires amount >= 0.0 && 0.0 <= bps <= 100.0
    ensures 0.0 <= BasisPoints(amount, bps) <= amount / 100.0
  {
    assert 0.0 <= amount * bps <= amount * 100.0;
  }

  lemma PriceNonNegative(c: Config, order: PaperOrder, bar: Bar)
    requires ConfigOk(c) && BarOk(bar)
    ensures FillPrice(c, order, bar) >= 0.0
  {
    MultiplierInRange(c, order.side);
    PriceFromNonNegative(bar.close, Multiplier(c, order.side));
  }

  lemma PriceFromNonNegative(close: real, multiplier: real)
    requires close >= 0.0 && multiplier >= 0.0
    ensures close * multiplier >= 0.0 && PriceFrom(close, multiplier) >= 0.0
  {
  }

  lemma MultiplierInRange(c: Config, side: Side)
    requires ConfigOk(c)
    ensures 0.985 <= Multiplier(c, side) <= 1.015
  {
  }

  lemma DivideBack(x: real, y: real)
    requires y != 0.0
    ensures x / y * y == x
  {
  }

  lemma ShareOf(whole: real, part: real, total: real)
    requires whole >= 0.0 && 0.0 <= part <= total && total > 0.0
    ensures 0.0 <= whole * part / total <= whole
    ensures part == total ==> whole * part / total == whole
  {
    assert whole * part <= whole * total;
    var share := whole * part / total;
    DivideBack(whole * part, total);
    assert share * total <= whole * total;
  }

  /** What one buy or sell does to a position's cost basis, commission and realized P&L. */
  lemma BoughtKeepsBasis(p: PositionState, quantity: real, price: real, commission: real)
    requires p.quantity >= 0.0 && p.average >= 0.0 && quantity > 0.0 && price >= 0.0
    ensures var n := Bought(p, quantity, price, commission);
      && n.quantity * n.average == p.quantity * p.average + price * quantity
      && n.average >= 0.0 && n.realized == p.realized
  {
    DivideBack(p.quantity * p.average + price * quantity, p.quantity + quantity);
    assert p.quantity * p.average + price * quantity >= 0.0;
  }

  lemma SoldKeepsBasis(p: PositionState, quantity: real, price: real, commission: real)
    requires p.average >= 0.0 && p.commission >= 0.0 && 0.0 < quantity <= p.quantity
    ensures var n := Sold(p, quantity, price, commission);
      && (n.quantity * n.average + n.commission - n.realized)
         - (p.quantity * p.average + p.commission - p.realized) == commission - price * quantity
      && n.quantity >= 0.0 && n.average >= 0.0 && n.commission >= 0.0
  {
    ShareOf(p.commission, quantity, p.quantity);
    assert (price - p.average) * quantity == price * quantity - p.average * quantity;
    assert (p.quantity - quantity) * p.average == p.quantity * p.average - quantity * p.average;
  }

  lemma SetPosition(c: Config, s: State, t: State, symbol: Symbol, p: PositionState)
    requires Balanced(c, s) && symbol in s.positions && t.positions == s.positions[symbol := p]
    requires var o := s.positions[symbol];
      (p.quantity * p.average + p.commission - p.realized) - (o.quantity * o.average + o.commission - o.realized) == s.cash - t.cash
    ensures Balanced(c, t)
  {
    SumOfUpdate(s.positions, symbol, p, (k, q: PositionState) => q.quantity * q.average);
    SumOfUpdate(s.positions, symbol, p, (k, q: PositionState) => q.commission);
    SumOfUpdate(s.positions, symbol, p, (k, q: PositionState) => q.realized);
  }

  lemma LookupKeeps(c: Config, s: State, symbol: Symbol)
    requires AccountOk(c, s)
    ensures AccountOk(c, Lookup(s, symbol))
  {
    SumOfUpdate(s.positions, symbol, NO_POSITION, (k, q: PositionState) => q.quantity * q.average);
    SumOfUpdate(s.positions, symbol, NO_POSITION, (k, q: PositionState) => q.commission);
    SumOfUpdate(s.positions, symbol, NO_POSITION, (k, q: PositionState) => q.realized);
  }

  lemma BuyingKeeps(c: Config, s: State, symbol: Symbol, quantity: real, price: real, commission: real)
    requires AccountOk(c, s) && symbol in s.positions
    requires quantity > 0.0 && price >= 0.0 && commission >= 0.0 && price * quantity + commission <= s.cash
    ensures AccountOk(c, Buying(s, symbol, quantity, price, commission))
  {
    var t := Buying(s, symbol, quantity, price, commission);
    BoughtKeepsBasis(s.positions[symbol], quantity, price, commission);
    SetPosition(c, s, t, symbol, t.positions[symbol]);
  }

  lemma SellingKeeps(c: Config, s: State, symbol: Symbol, quantity: real, price: real, commission: real)
    requires AccountOk(c, s) && symbol in s.positions
    requires 0.0 < quantity <= s.positions[symbol].quantity && commission <= price * quantity
    ensures AccountOk(c, Selling(s, symbol, quantity, price, commission))
  {
    var t := Selling(s, symbol, quantity, price, commission);
    SoldKeepsBasis(s.positions[symbol], quantity, price, commission);
    SetPosition(c, s, t, symbol, t.positions[symbol]);
  }

  lemma CommissionOfFill(c: Config, price: real, quantity: real)
    requires ConfigOk(c) && price >= 0.0 && quantity >= 0.0
    ensures 0.0 <= Commission(c, price * quantity) <= price * quantity
  {
    var notional := price * quantity;
    assert notional >= 0.0;
    CommissionBelowNotional(c, notional);
  }

  lemma QuantityBelowOrder(c: Config, order: PaperOrder, bar: Bar)
    ensures FillQuantity(c, order, bar) <= order.quantity
  {
  }

  ghost predicate CostsOk(order: PaperOrder, fill: PaperFill) {
    && fill.price >= 0.0 && fill.quantity <= order.quantity
    && (fill.quantity > 0.0 ==> 0.0 <= fill.commission <= fill.price * fill.quantity)
  }

  lemma FillCosts(c: Config, order: PaperOrder, bar: Bar)
    requires ConfigOk(c) && BarOk(bar)
    ensures CostsOk(order, FillOf(c, order, bar))
  {
    PriceNonNegative(c, order, bar);
    QuantityBelowOrder(c, order, bar);
    FillAtCosts(c, order, bar.at, FillQuantity(c, order, bar), FillPrice(c, order, bar));
  }

  lemma FillAtCosts(c: Config, order: PaperOrder, at: int, quantity: real, price: real)
    requires ConfigOk(c) && price >= 0.0 && quantity <= order.quantity
    ensures CostsOk(order, FillAt(c, order, at, quantity, price))
  {
    if quantity > 0.0 { CommissionOfFill(c, price, quantity); }
  }

  lemma MarkKeeps(c: Config, s: State, bar: Bar)
    requires AccountOk(c, s)
    ensures AccountOk(c, Mark(s, bar))
    ensures Mark(s, bar).cash == s.cash && Mark(s, bar).positions == s.positions && Mark(s, bar).fills == s.fills
  {
  }

  lemma ExecuteKeeps(c: Config, t: State, order: PaperOrder, fill: PaperFill)
    requires AccountOk(c, t) && fill.symbol == order.symbol && fill.side == order.side && fill.symbol in t.positions
    requires CostsOk(order, fill) && Refuses(t, order, fill).None?
    ensures AccountOk(c, Execute(t, fill))
  {
    if fill.side.Buy? {
      BuyingKeeps(c, t, fill.symbol, fill.quantity, fill.price, fill.commission);
    } else {
      SellingKeeps(c, t, fill.symbol, fill.quantity, fill.price, fill.commission);
    }
  }

  /** Every submission keeps the identity, also one that is refused or dies on an invalid fill. */
  lemma SubmitKeeps(c: Config, s: State, order: PaperOrder, bar: Bar)
    requires ConfigOk(c) && BarOk(bar) && AccountOk(c, s)
    ensures AccountOk(c, Submit(c, s, order, bar).0)
  {
    LookupKeeps(c, s, order.symbol);
    FillCosts(c, order, bar);
    if order.market && order.key !in s.fills && order.symbol == bar.symbol {
      var t := Lookup(s, order.symbol);
      var fill := FillOf(c, order, bar);
      if Refuses(t, order, fill).None? {
        ExecuteKeeps(c, t, order, fill);
        FilledMarkKeeps(c, Execute(t, fill), s.fills[order.key := fill], bar);
      }
    }
  }

  // ---- A refused submission is not always without effect ----

  function Held(s: State, symbol: Symbol): real {
    if symbol in s.positions then s.positions[symbol].quantity else 0.0
  }

  lemma RoundsToZero(x: real)
    requires x >= 0.0
    ensures RoundHalfUp(x, 1000000.0) == 0.0 <==> x < 0.0000005
  {
  }

  lemma ProductBelow(x: real, m: real)
    requires x >= 0.0 && m >= 0.985 && x * m < 0.0000005
    ensures x < 0.000001
  {
    assert x * 0.985 <= x * m;
  }

  /** A close so small that its adjusted price is less than half the last decimal place. */
  predicate Vanishes(close: real, multiplier: real) { close * multiplier < 0.0000005 }

  lemma PriceFromZero(close: real, multiplier: real)
    requires close >= 0.0 && multiplier >= 0.985
    ensures PriceFrom(close, multiplier) >= 0.0
    ensures PriceFrom(close, multiplier) == 0.0 <==> Vanishes(close, multiplier)
    ensures Vanishes(close, multiplier) ==> close < 0.000001
  {
    PriceFromNonNegative(close, multiplier);
    RoundsToZero(close * multiplier);
    if Vanishes(close, multiplier) { ProductBelow(close, multiplier); }
  }

  /** The price rounds to zero exactly for a close this small. */
  lemma PriceRoundsToZero(c: Config, order: PaperOrder, bar: Bar)
    requires ConfigOk(c) && BarOk(bar)
    ensures FillPrice(c, order, bar) >= 0.0
    ensures FillPrice(c, order, bar) == 0.0 <==> Vanishes(bar.close, Multiplier(c, order.side))
    ensures FillPrice(c, order, bar) == 0.0 ==> bar.close < 0.000001
  {
    MultiplierInRange(c, order.side);
    PriceFromZero(bar.close, Multiplier(c, order.side));
  }

  ghost predicate SameHeld(s: State, t: State) { forall k :: Held(t, k) == Held(s, k) }

  /** What a caller can see before submitting: a fresh market order for the bar's symbol that passes the
      position and liquidity checks, on a bar whose fill price rounds to zero. */
  predicate MovesThenRaises(c: Config, s: State, order: PaperOrder, bar: Bar) {
    && order.market && order.key !in s.fills && order.symbol == bar.symbol
    && (order.side.Sell? ==> order.quantity <= Held(s, order.symbol))
    && FillQuantity(c, order, bar) > 0.0
    && Vanishes(bar.close, Multiplier(c, order.side))
  }

  lemma FreeFill(c: Config, order: PaperOrder, at: int, quantity: real)
    ensures var fill := FillAt(c, order, at, quantity, 0.0); fill.price == 0.0 && fill.commission == 0.0
  {
    assert 0.0 * quantity == 0.0 && 0.0 * c.commissionBps / 10000.0 == 0.0;
  }

  /** A fill at no price and no cost moves the position and nothing else. */
  lemma FreeFillMoves(s: State, fill: PaperFill)
    requires NonNegative(s) && fill.symbol in s.positions && fill.quantity > 0.0
    requires fill.side.Sell? ==> fill.quantity <= s.positions[fill.symbol].quantity
    requires fill.price == 0.0 && fill.commission == 0.0
    ensures var t := Execute(s, fill);
      && t == s.(positions := t.positions) && !SameHeld(s, t)
      && Held(t, fill.symbol) == Held(s, fill.symbol) + if fill.side.Buy? then fill.quantity else -fill.quantity
  {
    var t := Execute(s, fill);
    assert fill.price * fill.quantity == 0.0;
    assert Held(t, fill.symbol) != Held(s, fill.symbol);
  }

  /** At no cost only the position and liquidity checks can refuse. */
  lemma FreeFillRefusals(s: State, order: PaperOrder, fill: PaperFill)
    requires NonNegative(s) && order.symbol in s.positions && fill.price == 0.0 && fill.commission == 0.0
    ensures Refuses(s, order, fill).None?
            <==> (order.side.Sell? ==> order.quantity <= s.positions[order.symbol].quantity) && fill.quantity > 0.0
  {
    assert fill.price * fill.quantity == 0.0;
  }

  /** From the position lookup on, a raising submission leaves a quantity changed exactly when nothing
      refuses and the price is not positive. */
  lemma FillUpToMoves(s: State, order: PaperOrder, fill: PaperFill, bar: Bar)
    requires NonNegative(s) && order.symbol in s.positions && fill.symbol == order.symbol && fill.side == order.side
    requires fill.quantity <= order.quantity && fill.price >= 0.0 && (fill.price == 0.0 ==> fill.commission == 0.0)
    ensures var (t, r) := FillUpTo(s, order, fill, bar);
      var moves := (order.side.Sell? ==> order.quantity <= Held(s, order.symbol)) && fill.quantity > 0.0 && fill.price == 0.0;
      && (r.Raised? && !SameHeld(s, t) <==> moves)
      && (moves ==>
            && r == Raised(InvalidFill) && t == s.(positions := t.positions)
            && Held(t, order.symbol) == Held(s, order.symbol) + if order.side.Buy? then fill.quantity else -fill.quantity)
  {
    if fill.price == 0.0 {
      FreeFillRefusals(s, order, fill);
      if Refuses(s, order, fill).None? { FreeFillMoves(s, fill); }
    }
  }

  lemma LookupHolds(s: State, symbol: Symbol)
    ensures SameHeld(s, Lookup(s, symbol)) && Lookup(s, symbol) == s.(positions := Lookup(s, symbol).positions)
  {
  }

  /** A submission that raises leaves some quantity changed exactly in that case; then it is the order's
      own symbol that moved, by the fill quantity, while cash, marks, fills and the watermark stand. */
  lemma RaiseMovesPosition(c: Config, s: State, order: PaperOrder, bar: Bar)
    requires ConfigOk(c) && BarOk(bar) && NonNegative(s)
    ensures var (t, r) := Submit(c, s, order, bar);
      && (r.Raised? && !SameHeld(s, t) <==> MovesThenRaises(c, s, order, bar))
      && (MovesThenRaises(c, s, order, bar) ==>
            && r == Raised(InvalidFill) && bar.close < 0.000001
            && t == s.(positions := t.positions)
            && Held(t, order.symbol) == Held(s, order.symbol)
               + (if order.side.Buy? then FillQuantity(c, order, bar) else -FillQuantity(c, order, bar)))
  {
    if order.market && order.key !in s.fills && order.symbol == bar.symbol {
      var looked, fill := Lookup(s, order.symbol), FillOf(c, order, bar);
      LookupHolds(s, order.symbol);
      PriceRoundsToZero(c, order, bar);
      if FillPrice(c, order, bar) == 0.0 { FreeFill(c, order, bar.at, FillQuantity(c, order, bar)); }
      FillUpToMoves(looked, order, fill, bar);
    }
  }

  const TINY_CONFIG := Config(1000.0, 0.0, 0.0, 0.0, 1.0)
  const TINY_BAR := Bar("S", 0, 0.0000001, 1.0)
  const TINY_ORDER := PaperOrder(DecisionKey("s", "S", 0, 1.0), "S", Buy, 1.0, true)

  lemma TinyIsVanishing()
    ensures ConfigOk(TINY_CONFIG) && BarOk(TINY_BAR) && FillQuantity(TINY_CONFIG, TINY_ORDER, TINY_BAR) == 1.0
    ensures Vanishes(TINY_BAR.close, Multiplier(TINY_CONFIG, TINY_ORDER.side))
  {
  }

  lemma FirstBuyMoves(c: Config, order: PaperOrder, bar: Bar)
    requires ConfigOk(c) && BarOk(bar) && order.market && order.side.Buy? && order.symbol == bar.symbol
    requires FillQuantity(c, order, bar) == 1.0 && Vanishes(bar.close, Multiplier(c, order.side))
    ensures var s := Initial(c);
      var (t, r) := Submit(c, s, order, bar);
      && r == Raised(InvalidFill) && Held(s, order.symbol) == 0.0 && Held(t, order.symbol) == 1.0
      && t.cash == s.cash && t.fills == s.fills
  {
    RaiseMovesPosition(c, Initial(c), order, bar);
  }

  /** One share bought at a close of a ten-millionth: the call raises, nothing is recorded or paid, and
      the share is held. */
  lemma TinyCloseMovesPosition()
    ensures ConfigOk(TINY_CONFIG) && BarOk(TINY_BAR)
    ensures var s := Initial(TINY_CONFIG);
      var (t, r) := Submit(TINY_CONFIG, s, TINY_ORDER, TINY_BAR);
      && r == Raised(InvalidFill) && Held(s, TINY_ORDER.symbol) == 0.0 && Held(t, TINY_ORDER.symbol) == 1.0
      && t.cash == s.cash && t.fills == s.fills
  {
    TinyIsVanishing();
    FirstBuyMoves(TINY_CONFIG, TINY_ORDER, TINY_BAR);
  }

  lemma FilledMarkKeeps(c: Config, s: State, fills: map<DecisionKey, PaperFill>, bar: Bar)
    requires AccountOk(c, s)
    ensures AccountOk(c, Mark(s.(fills := fills), bar))
  {
    MarkKeeps(c, s.(fills := fills), bar);
  }

  datatype Operation = SubmitOp(order: PaperOrder, bar: Bar) | MarkOp(bar: Bar)

  ghost function RunOps(c: Config, ops: seq<Operation>): (s: State)
    requires ConfigOk(c) && forall op :: op in ops ==> BarOk(op.bar)
    ensures AccountOk(c, s)
  {
    if ops == [] then Initial(c)
    else
      var before := RunOps(c, ops[..|ops| - 1]);
      var op := ops[|ops| - 1];
      match op
      case MarkOp(bar) => Mark(before, bar)
      case SubmitOp(order, bar) => SubmitKeeps(c, before, order, bar); Submit(c, before, order, bar).0
  }

  /** After any run of submissions and marks: cash, cost basis and unallocated entry commission add up
      to the starting cash plus realized P&L, and cash and holdings are never negative. */
  lemma AccountingIdentity(c: Config, ops: seq<Operation>)
    requires ConfigOk(c) && forall op :: op in ops ==> BarOk(op.bar)
    ensures var s := RunOps(c, ops);
      && s.cash + CostBasis(s) + EntryCommissions(s) == c.starting + Realized(s)
      && s.cash >= 0.0 && forall k :: k in s.positions ==> s.positions[k].quantity >= 0.0
  {
    assert AccountOk(c, RunOps(c, ops));
  }

  // ---- Account snapshots ----

  datatype AccountView = AccountView(cash: real, equity: real, dayStart: real, high: real, holdings: map<Symbol, real>)

  function MarkedWorthAt(marks: map<Symbol, real>, k: Symbol, p: PositionState): real {
    if p.quantity != 0.0 && k in marks then p.quantity * marks[k] else 0.0
  }

  ghost function MarkedWorth(s: State): (Symbol, PositionState) -> real { (k, p) => MarkedWorthAt(s.marks, k, p) }

  ghost function MarkedEquity(s: State): real { s.cash + SumOf(s.positions, MarkedWorth(s)) }

  /** Reading the account may raise the high watermark; None where the snapshot fails validation. */
  ghost function TakeAccount(s: State): (State, Option<AccountView>) {
    var equity := MarkedEquity(s);
    var t := s.(high := if s.high < equity then equity else s.high);
    var view := AccountView(Money(s.cash), Money(equity), Money(s.dayStart), Money(t.high),
                            map k | k in s.positions && s.positions[k].quantity != 0.0 && k in s.marks :: s.positions[k].quantity);
    (t, if view.equity > 0.0 && view.dayStart > 0.0 && view.high > 0.0 then Some(view) else None)
  }

  /** Every held symbol has a mark and the watermark covers the equity. */
  ghost predicate Settled(s: State) {
    && (forall k :: k in s.positions && s.positions[k].quantity != 0.0 ==> k in s.marks)
    && Equity(s) <= s.high
  }

  lemma SettledAccountIsIdle(s: State)
    requires Settled(s)
    ensures TakeAccount(s).0 == s
  {
    SumOfSame(s.positions, Worth(s), MarkedWorth(s));
  }

  /** A marked broker does not move when the same bar marks it again. */
  ghost predicate MarkedBy(s: State, bar: Bar) {
    Settled(s) && s.session == Some(bar.at / DAY) && bar.symbol in s.marks && s.marks[bar.symbol] == bar.close
  }

  lemma RemarkIsIdle(s: State, bar: Bar)
    requires MarkedBy(s, bar)
    ensures Mark(s, bar) == s
  {
    assert s.marks[bar.symbol := bar.close] == s.marks;
  }

  lemma MarkSettles(s: State, bar: Bar)
    requires forall k :: k in s.positions && s.positions[k].quantity != 0.0 ==> k in s.marks || k == bar.symbol
    ensures MarkedBy(Mark(s, bar), bar)
  {
    var t := Mark(s, bar);
    SumOfSame(t.positions, Worth(t), Worth(t.(high := s.high)));
  }

  // ---- The broker object ----

  /** Adds up one value per position, in whatever order the dictionary yields them. */
  method AddUp(positions: map<Symbol, PositionState>, worth: (Symbol, PositionState) -> real) returns (sum: real)
    ensures sum == SumOf(positions, worth)
  {
    sum := 0.0;
    var left := positions;
    while left != map[]
      invariant sum + SumOf(left, worth) == SumOf(positions, worth)
      decreases |left|
    {
      var k :| k in left;
      SumOfRemove(left, k, worth);
      sum := sum + worth(k, left[k]);
      left := left - {k};
    }
  }

  class Broker {
    const config: Config
    var cash: real
    var positions: map<Symbol, PositionState>
    var marks: map<Symbol, real>
    var fills: map<DecisionKey, PaperFill>
    var session: Option<int>
    var dayStart: real
    var high: real

    ghost function View(): State reads this { State(cash, positions, marks, fills, session, dayStart, high) }

    constructor (c: Config)
      ensures config == c && View() == Initial(c)
    {
      config := c;
      cash, dayStart, high := c.starting, c.starting, c.starting;
      positions, marks, fills, session := map[], map[], map[], None;
    }

    constructor Restore(c: Config, s: State)
      ensures config == c && View() == s
    {
      config := c;
      cash, positions, marks, fills := s.cash, s.positions, s.marks, s.fills;
      session, dayStart, high := s.session, s.dayStart, s.high;
    }

    method Export() returns (s: State)
      ensures s == View()
    {
      s := State(cash, positions, marks, fills, session, dayStart, high);
    }

    method CalculateEquity() returns (equity: real)
      ensures equity == Equity(View())
    {
      var m := marks;
      var worth := (k, p) => WorthAt(m, k, p);
      var sum := AddUp(positions, worth);
      SumOfSame(positions, worth, Worth(View()));
      equity := cash + sum;
    }

    method MarkBar(bar: Bar)
      modifies this
      ensures View() == Mark(old(View()), bar)
    {
      var prior := CalculateEquity();
      if session != Some(bar.at / DAY) {
        session := Some(bar.at / DAY);
        dayStart := prior;
      }
      marks := marks[bar.symbol := bar.close];
      assert View().(high := old(high)) == View();
      var equity := CalculateEquity();
      if high < equity { high := equity; }
    }

    method Settle(fill: PaperFill)
      requires NonNegative(View()) && fill.symbol in positions && fill.quantity > 0.0
      requires fill.side.Sell? ==> fill.quantity <= positions[fill.symbol].quantity
      modifies this`cash, this`positions
      ensures View() == Execute(old(View()), fill)
    {
      var position := positions[fill.symbol];
      if fill.side.Buy? {
        positions := positions[fill.symbol := Bought(position, fill.quantity, fill.price, fill.commission)];
        cash := cash - (fill.price * fill.quantity + fill.commission);
      } else {
        positions := positions[fill.symbol := Sold(position, fill.quantity, fill.price, fill.commission)];
        cash := cash + (fill.price * fill.quantity - fill.commission);
      }
    }

    method SubmitOrder(order: PaperOrder, bar: Bar) returns (r: SubmitResult)
      requires NonNegative(View())
      modifies this
      ensures (View(), r) == Submit(config, old(View()), order, bar)
    {
      if !order.market { return Raised(LimitOrder); }
      if order.key in fills { return Executed(fills[order.key]); }
      if order.symbol != bar.symbol { return Raised(WrongSymbol); }
      if order.symbol !in positions { positions := positions[order.symbol := NO_POSITION]; }
      assert View() == Lookup(old(View()), order.symbol);
      var fill := FillOf(config, order, bar);
      QuantityBelowOrder(config, order, bar);
      var refusal := Refuses(State(cash, positions, marks, fills, session, dayStart, high), order, fill);
      if refusal.Some? { return Raised(refusal.value); }
      Settle(fill);
      if fill.price <= 0.0 { return Raised(InvalidFill); }
      fills := fills[order.key := fill];
      MarkBar(bar);
      r := Executed(fill);
    }

    method Account() returns (view: Option<AccountView>)
      modifies this
      ensures (View(), view) == TakeAccount(old(View()))
    {
      var m := marks;
      var worth := (k, p) => MarkedWorthAt(m, k, p);
      var sum := AddUp(positions, worth);
      SumOfSame(positions, worth, MarkedWorth(View()));
      var equity := cash + sum;
      if high < equity { high := equity; }
      var a := AccountView(Money(cash), Money(equity), Money(dayStart), Money(high),
                           map k | k in positions && positions[k].quantity != 0.0 && k in marks :: positions[k].quantity);
      view := if a.equity > 0.0 && a.dayStart > 0.0 && a.high > 0.0 then Some(a) else None;
    }
  }
}
