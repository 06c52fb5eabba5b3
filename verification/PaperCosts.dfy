/** What a fill of the fake-money broker costs, stated without its formulas: the price is the close moved
    against the trader and rounded, the quantity is capped by whole shares of the volume, and trading to
    and fro on one close loses money. */
module PaperCosts {
  import opened Orders
  import opened PaperBroker

  /** The whole number nearest to x, the upper one of two. */
  predicate Nearest(x: real, k: int) { k as real - 0.5 <= x < k as real + 0.5 }

  lemma NearestIsFloor(x: real, k: int)
    ensures Nearest(x, k) <==> k == (x + 0.5).Floor
  {
  }

  /** Terms of a fill: whole shares the bar can give, millionths of the price, and ten-thousandths of
      the commission. */
  datatype Terms = Terms(shares: int, micros: int, commissionUnits: int) {
    function Price(): real { micros as real / 1000000.0 }
    function Commission(): real { commissionUnits as real / 10000.0 }
    function Quantity(wanted: real): real { if wanted < shares as real then wanted else shares as real }
  }

  /** Slippage and half the spread, as a fraction of the close. */
  function Cost(c: Config): real { c.slippageBps / 10000.0 + c.spreadBps / 20000.0 }

  /** The close with the cost added for a buy and taken off for a sell. */
  function Charged(c: Config, side: Side, close: real): real {
    if side.Buy? then close + close * Cost(c) else close - close * Cost(c)
  }

  function RateOn(c: Config, notional: real): real { notional * c.commissionBps / 10000.0 }

  ghost predicate FairShares(c: Config, bar: Bar, shares: int) {
    shares as real <= bar.volume * c.participation < shares as real + 1.0
  }

  ghost predicate FairMicros(c: Config, side: Side, close: real, micros: int) {
    Nearest(Charged(c, side, close) * 1000000.0, micros)
  }

  ghost predicate FairUnits(c: Config, price: real, quantity: real, units: int) {
    Nearest(RateOn(c, price * quantity) * 10000.0, units)
  }

  ghost predicate Fair(c: Config, order: PaperOrder, bar: Bar, t: Terms) {
    && FairShares(c, bar, t.shares) && FairMicros(c, order.side, bar.close, t.micros)
    && FairUnits(c, t.Price(), t.Quantity(order.quantity), t.commissionUnits)
  }

  lemma ChargedIsPositive(c: Config, side: Side, close: real)
    requires ConfigOk(c) && close > 0.0
    ensures close * Multiplier(c, side) == Charged(c, side, close) > 0.0
  {
    MultiplierInRange(c, side);
    assert close * Cost(c) <= close * 0.015;
  }

  lemma RoundedPrice(x: real, micros: int)
    requires x >= 0.0 && Nearest(x * 1000000.0, micros)
    ensures RoundHalfUp(x, 1000000.0) == micros as real / 1000000.0 >= 0.0
  {
    NearestIsFloor(x * 1000000.0, micros);
  }

  lemma RoundedMoney(x: real, units: int)
    requires x >= 0.0 && Nearest(x * 10000.0, units)
    ensures Money(x) == units as real / 10000.0
  {
    NearestIsFloor(x * 10000.0, units);
  }

  lemma ProductNonNegative(x: real, y: real)
    requires x >= 0.0 && y >= 0.0
    ensures x * y >= 0.0
  {
  }

  lemma RateIs(amount: real, bps: real)
    requires amount >= 0.0 && bps >= 0.0
    ensures BasisPoints(amount, bps) == amount * bps / 10000.0 >= 0.0
  {
    ProductNonNegative(amount, bps);
  }

  lemma RoundedCommission(c: Config, notional: real, units: int)
    requires ConfigOk(c) && notional >= 0.0 && Nearest(RateOn(c, notional) * 10000.0, units)
    ensures PaperBroker.Commission(c, notional) == units as real / 10000.0
  {
    RateIs(notional, c.commissionBps);
    RoundedMoney(BasisPoints(notional, c.commissionBps), units);
  }

  lemma FairCommission(c: Config, price: real, quantity: real, units: int)
    requires ConfigOk(c) && price >= 0.0 && quantity > 0.0 && FairUnits(c, price, quantity, units)
    ensures PaperBroker.Commission(c, price * quantity) == units as real / 10000.0
  {
    RoundedCommission(c, price * quantity, units);
  }

  lemma SharesAreFloor(volume: real, participation: real, shares: int)
    requires shares as real <= volume * participation < shares as real + 1.0
    ensures Participating(volume, participation) == shares
  {
  }

  lemma RoundedPriceFrom(close: real, multiplier: real, x: real, micros: int)
    requires x == close * multiplier >= 0.0 && Nearest(x * 1000000.0, micros)
    ensures PriceFrom(close, multiplier) == micros as real / 1000000.0 >= 0.0
  {
    RoundedPrice(x, micros);
  }

  lemma ChargedPrice(c: Config, side: Side, close: real, micros: int)
    requires ConfigOk(c) && close > 0.0 && FairMicros(c, side, close, micros)
    ensures PriceFrom(close, Multiplier(c, side)) == micros as real / 1000000.0 >= 0.0
  {
    ChargedIsPositive(c, side, close);
    RoundedPriceFrom(close, Multiplier(c, side), Charged(c, side, close), micros);
  }

  lemma SharesFill(c: Config, order: PaperOrder, bar: Bar, shares: int)
    requires FairShares(c, bar, shares)
    ensures FillQuantity(c, order, bar) == if order.quantity < shares as real then order.quantity else shares as real
  {
    SharesAreFloor(bar.volume, c.participation, shares);
  }

  /** A fill at these terms; the commission is free where nothing is filled. */
  ghost predicate At(order: PaperOrder, bar: Bar, t: Terms, fill: PaperFill) {
    && fill == PaperFill(order.key, order.symbol, order.side, fill.quantity, fill.price, fill.commission, bar.at)
    && fill.quantity == t.Quantity(order.quantity) && fill.price == t.Price()
    && (fill.quantity > 0.0 ==> fill.commission == t.Commission())
  }

  lemma FilledAt(c: Config, order: PaperOrder, at: int, quantity: real, price: real, commission: real)
    requires quantity > 0.0 ==> PaperBroker.Commission(c, price * quantity) == commission
    ensures var f := FillAt(c, order, at, quantity, price);
      && f == PaperFill(order.key, order.symbol, order.side, quantity, price, f.commission, at)
      && (quantity > 0.0 ==> f.commission == commission)
  {
  }

  /** Fair terms are the terms the broker fills at. */
  lemma FairIsFill(c: Config, order: PaperOrder, bar: Bar, t: Terms)
    requires ConfigOk(c) && BarOk(bar) && Fair(c, order, bar, t)
    ensures At(order, bar, t, FillOf(c, order, bar))
  {
    ChargedPrice(c, order.side, bar.close, t.micros);
    SharesFill(c, order, bar, t.shares);
    var quantity, price := FillQuantity(c, order, bar), FillPrice(c, order, bar);
    if quantity > 0.0 { FairCommission(c, price, quantity, t.commissionUnits); }
    FilledAt(c, order, bar.at, quantity, price, t.Commission());
  }

  /** Every order has fair terms on every bar. */
  lemma FairTermsExist(c: Config, order: PaperOrder, bar: Bar) returns (t: Terms)
    ensures Fair(c, order, bar, t)
  {
    var shares := (bar.volume * c.participation).Floor;
    var micros := (Charged(c, order.side, bar.close) * 1000000.0 + 0.5).Floor;
    var draft := Terms(shares, micros, 0);
    var raw := RateOn(c, draft.Price() * draft.Quantity(order.quantity)) * 10000.0;
    t := Terms(shares, micros, (raw + 0.5).Floor);
  }

  /** What an order's execution must satisfy before anything moves. */
  ghost predicate Affordable(s: State, order: PaperOrder, t: Terms) {
    && t.shares > 0 && order.quantity > 0.0 && t.micros > 0
    && (order.side.Sell? ==> order.quantity <= Held(s, order.symbol))
    && (order.side.Buy? ==> t.Price() * t.Quantity(order.quantity) + t.Commission() <= s.cash)
  }

  ghost predicate Traded(s: State, after: State, order: PaperOrder, fill: PaperFill) {
    && after.fills == s.fills[order.key := fill]
    && after.cash == s.cash - fill.commission
         + (if order.side.Buy? then -(fill.price * fill.quantity) else fill.price * fill.quantity)
    && forall k :: Held(after, k) - Held(s, k)
         == if k != order.symbol then 0.0 else if order.side.Buy? then fill.quantity else -fill.quantity
  }

  lemma MarkMovesNothing(s: State, bar: Bar)
    ensures var t := Mark(s, bar); t.cash == s.cash && t.positions == s.positions && t.fills == s.fills
  {
  }

  lemma ExecuteTrades(s: State, order: PaperOrder, fill: PaperFill)
    requires NonNegative(s) && fill.symbol in s.positions && fill.quantity > 0.0
    requires fill.symbol == order.symbol && fill.side == order.side
    requires fill.side.Sell? ==> fill.quantity <= s.positions[fill.symbol].quantity
    ensures Traded(s, Execute(s, fill).(fills := s.fills[order.key := fill]), order, fill)
  {
  }

  lemma FillUpToTrades(s: State, order: PaperOrder, fill: PaperFill, bar: Bar)
    requires NonNegative(s) && order.symbol in s.positions && fill.symbol == order.symbol && fill.side == order.side
    requires fill.quantity <= order.quantity
    ensures var (after, r) := FillUpTo(s, order, fill, bar);
      && (r.Executed? <==> Fillable(s, order, fill))
      && (r.Executed? ==> r.fill == fill && Traded(s, after, order, fill))
  {
    if Refuses(s, order, fill).None? {
      ExecuteTrades(s, order, fill);
      MarkMovesNothing(Execute(s, fill).(fills := s.fills[order.key := fill]), bar);
    }
  }

  ghost predicate Fillable(s: State, order: PaperOrder, fill: PaperFill) {
    && fill.quantity > 0.0 && fill.price > 0.0
    && (order.side.Sell? ==> order.quantity <= Held(s, order.symbol))
    && (order.side.Buy? ==> fill.price * fill.quantity + fill.commission <= s.cash)
  }

  lemma AffordableIsFillable(s: State, order: PaperOrder, bar: Bar, t: Terms, fill: PaperFill)
    requires At(order, bar, t, fill)
    ensures Affordable(s, order, t) <==> Fillable(s, order, fill)
  {
    assert fill.quantity > 0.0 <==> t.shares > 0 && order.quantity > 0.0;
    assert fill.price > 0.0 <==> t.micros > 0;
  }

  lemma SubmitFills(c: Config, s: State, order: PaperOrder, bar: Bar)
    requires NonNegative(s) && order.market && order.key !in s.fills && order.symbol == bar.symbol
    ensures var (after, r) := Submit(c, s, order, bar);
      && (r.Executed? <==> Fillable(s, order, FillOf(c, order, bar)))
      && (r.Executed? ==> r.fill == FillOf(c, order, bar) && Traded(s, after, order, r.fill))
  {
    LookupHolds(s, order.symbol);
    QuantityBelowOrder(c, order, bar);
    FillUpToTrades(Lookup(s, order.symbol), order, FillOf(c, order, bar), bar);
  }

  /** A fresh market order for the bar's symbol is executed exactly when it is affordable at the fair
      terms, and then at them: what is paid or received, held and recorded follows from the terms alone. */
  lemma SubmitAtFairTerms(c: Config, s: State, order: PaperOrder, bar: Bar, t: Terms)
    requires ConfigOk(c) && BarOk(bar) && NonNegative(s) && Fair(c, order, bar, t)
    requires order.market && order.key !in s.fills && order.symbol == bar.symbol
    ensures var (after, r) := Submit(c, s, order, bar);
      && (r.Executed? <==> Affordable(s, order, t))
      && (r.Executed? ==>
            && r.fill == PaperFill(order.key, order.symbol, order.side,
                                   t.Quantity(order.quantity), t.Price(), t.Commission(), bar.at)
            && Traded(s, after, order, r.fill))
  {
    FairIsFill(c, order, bar, t);
    AffordableIsFillable(s, order, bar, t, FillOf(c, order, bar));
    SubmitFills(c, s, order, bar);
  }

  // ---- There and back ----

  lemma NearestKeepsOrder(low: real, high: real, sell: int, buy: int)
    requires low <= high && Nearest(low, sell) && Nearest(high, buy)
    ensures sell <= buy
    ensures high - low > 1.0 ==> sell < buy
  {
  }

  lemma BuyAboveSell(c: Config, close: real, buy: int, sell: int)
    requires ConfigOk(c) && close > 0.0
    requires FairMicros(c, Buy, close, buy) && FairMicros(c, Sell, close, sell)
    ensures sell <= buy
    ensures 2.0 * (close * Cost(c)) > 0.000001 ==> sell < buy
  {
    var cost := close * Cost(c);
    assert cost >= 0.0;
    NearestKeepsOrder((close - cost) * 1000000.0, (close + cost) * 1000000.0, sell, buy);
  }

  lemma CommissionNonNegative(c: Config, price: real, quantity: real, units: int)
    requires ConfigOk(c) && price >= 0.0 && quantity >= 0.0 && FairUnits(c, price, quantity, units)
    ensures units >= 0
  {
    ProductNonNegative(price, quantity);
    RateIs(price * quantity, c.commissionBps);
  }

  /** The price of an executed order in millionths; its commission is never negative. */
  ghost predicate ChargedFill(c: Config, side: Side, close: real, micros: int, fill: PaperFill) {
    && FairMicros(c, side, close, micros)
    && fill.price == micros as real / 1000000.0 && fill.quantity > 0.0 && fill.commission >= 0.0
  }

  lemma FairFillIsCharged(c: Config, order: PaperOrder, bar: Bar, t: Terms, fill: PaperFill)
    requires ConfigOk(c) && BarOk(bar) && Fair(c, order, bar, t) && t.micros > 0
    requires fill.quantity == t.Quantity(order.quantity) > 0.0
    requires fill.price == t.Price() && fill.commission == t.Commission()
    ensures ChargedFill(c, order.side, bar.close, t.micros, fill)
  {
    CommissionNonNegative(c, t.Price(), t.Quantity(order.quantity), t.commissionUnits);
  }

  lemma ExecutedIsCharged(c: Config, s: State, order: PaperOrder, bar: Bar) returns (micros: int)
    requires ConfigOk(c) && BarOk(bar) && NonNegative(s) && order.key !in s.fills
    requires Submit(c, s, order, bar).1.Executed?
    ensures var (after, r) := Submit(c, s, order, bar);
      ChargedFill(c, order.side, bar.close, micros, r.fill) && r.fill.key == order.key && Traded(s, after, order, r.fill)
  {
    var t := FairTermsExist(c, order, bar);
    SubmitAtFairTerms(c, s, order, bar, t);
    FairFillIsCharged(c, order, bar, t, Submit(c, s, order, bar).1.fill);
    micros := t.micros;
  }

  predicate PriceWithin(c: Config, side: Side, close: real, price: real) {
    var cost := close * (c.slippageBps / 10000.0 + c.spreadBps / 20000.0);
    var charged := if side.Buy? then close + cost else close - cost;
    charged - 0.0000005 <= price <= charged + 0.0000005
  }

  lemma NearestWithin(x: real, micros: int)
    requires Nearest(x * 1000000.0, micros)
    ensures x - 0.0000005 <= micros as real / 1000000.0 <= x + 0.0000005
  {
  }

  lemma ChargedWithin(c: Config, side: Side, close: real, micros: int, fill: PaperFill)
    requires ChargedFill(c, side, close, micros, fill)
    ensures PriceWithin(c, side, close, fill.price)
  {
    NearestWithin(Charged(c, side, close), micros);
  }

  /** An executed order's price is within half a millionth of the close with the costs added for a buy
      and taken off for a sell. */
  lemma ExecutedPrice(c: Config, s: State, order: PaperOrder, bar: Bar, fill: PaperFill)
    requires ConfigOk(c) && BarOk(bar) && NonNegative(s) && order.key !in s.fills
    requires Submit(c, s, order, bar).1 == Executed(fill)
    ensures PriceWithin(c, order.side, bar.close, fill.price)
  {
    var micros := ExecutedIsCharged(c, s, order, bar);
    ChargedWithin(c, order.side, bar.close, micros, fill);
  }

  ghost predicate Loses(c: Config, close: real, s: State, end: State) {
    && SameHeld(s, end) && end.cash <= s.cash
    && (2.0 * (close * Cost(c)) > 0.000001 ==> end.cash < s.cash)
  }

  lemma Spread(buy: real, sell: real, quantity: real)
    requires sell <= buy && quantity > 0.0
    ensures sell * quantity <= buy * quantity
    ensures sell < buy ==> sell * quantity < buy * quantity
  {
  }

  /** The notional of the buy is at least that of the sale, and more if its price is. */
  lemma NotionalsApart(f: PaperFill, g: PaperFill, buyFirst: bool)
    requires f.quantity == g.quantity > 0.0 && if buyFirst then g.price <= f.price else f.price <= g.price
    ensures var x, y := f.price * f.quantity, g.price * g.quantity;
      if buyFirst then y <= x && (f.price != g.price ==> y < x) else x <= y && (f.price != g.price ==> x < y)
  {
    if buyFirst { Spread(f.price, g.price, f.quantity); } else { Spread(g.price, f.price, f.quantity); }
    assert g.price * g.quantity == g.price * f.quantity;
  }

  lemma HoldingsRestored(s: State, mid: State, end: State, there: PaperOrder, back: PaperOrder, f: PaperFill, g: PaperFill)
    requires there.side != back.side && there.symbol == back.symbol && f.quantity == g.quantity
    requires Traded(s, mid, there, f) && Traded(mid, end, back, g)
    ensures SameHeld(s, end)
  {
    forall k ensures Held(end, k) == Held(s, k) { assert Held(mid, k) - Held(s, k) == Held(mid, k) - Held(end, k); }
  }

  lemma CashMoved(s: State, mid: State, end: State, there: PaperOrder, back: PaperOrder, f: PaperFill, g: PaperFill)
    requires there.side != back.side && there.symbol == back.symbol && f.quantity == g.quantity > 0.0
    requires Traded(s, mid, there, f) && Traded(mid, end, back, g) && f.commission >= 0.0 && g.commission >= 0.0
    requires if there.side.Buy? then g.price <= f.price else f.price <= g.price
    ensures SameHeld(s, end) && end.cash <= s.cash && (f.price != g.price ==> end.cash < s.cash)
  {
    HoldingsRestored(s, mid, end, there, back, f, g);
    NotionalsApart(f, g, there.side.Buy?);
  }

  lemma BackAndForth(c: Config, close: real, s: State, mid: State, end: State,
                     there: PaperOrder, back: PaperOrder, f: PaperFill, g: PaperFill, m: int, n: int)
    requires ConfigOk(c) && close > 0.0 && there.side != back.side && there.symbol == back.symbol
    requires Traded(s, mid, there, f) && Traded(mid, end, back, g) && f.quantity == g.quantity
    requires ChargedFill(c, there.side, close, m, f) && ChargedFill(c, back.side, close, n, g)
    ensures Loses(c, close, s, end)
  {
    if there.side.Buy? { BuyAboveSell(c, close, m, n); } else { BuyAboveSell(c, close, n, m); }
    CashMoved(s, mid, end, there, back, f, g);
  }

  /** Trading a quantity and trading it back on the same close restores the holding and never gains
      cash; it loses some as soon as the costs exceed the rounding of the two prices. */
  lemma ThereAndBackLoses(c: Config, s: State, there: PaperOrder, back: PaperOrder, b1: Bar, b2: Bar)
    requires ConfigOk(c) && BarOk(b1) && BarOk(b2) && b1.close == b2.close && AccountOk(c, s)
    requires there.side != back.side && there.symbol == back.symbol
    requires there.key !in s.fills && back.key !in s.fills && there.key != back.key
    requires Submit(c, s, there, b1).1.Executed? && NonNegative(Submit(c, s, there, b1).0)
    requires Submit(c, Submit(c, s, there, b1).0, back, b2).1.Executed?
    requires Submit(c, Submit(c, s, there, b1).0, back, b2).1.fill.quantity == Submit(c, s, there, b1).1.fill.quantity
    ensures Loses(c, b1.close, s, Submit(c, Submit(c, s, there, b1).0, back, b2).0)
  {
    var m := ExecutedIsCharged(c, s, there, b1);
    var (mid, f) := Submit(c, s, there, b1);
    assert back.key !in mid.fills;
    var n := ExecutedIsCharged(c, mid, back, b2);
    var (end, g) := Submit(c, mid, back, b2);
    BackAndForth(c, b1.close, s, mid, end, there, back, f.fill, g.fill, m, n);
  }
}
