/** What any run of submissions and marks leaves behind: the position arithmetic, closed accounts and the
    high watermark. */
module PaperAccounts {
  import opened Orders
  import opened PaperBroker
  import opened PaperCosts

  /** How a fill moves its position: a buy averages its price in and adds its commission; a sale keeps the
      average, takes out its share of the entry commission and realizes the difference. */
  ghost predicate PositionMoved(p: PositionState, n: PositionState, fill: PaperFill) {
    if fill.side.Buy? then
      && n.quantity == p.quantity + fill.quantity && n.realized == p.realized
      && n.average * n.quantity == p.average * p.quantity + fill.price * fill.quantity
      && n.commission == p.commission + fill.commission
    else
      && n.quantity == p.quantity - fill.quantity
      && (p.commission - n.commission) * p.quantity == p.commission * fill.quantity
      && (n.quantity > 0.0 ==> n.average == p.average)
      && (n.quantity == 0.0 ==> n.average == 0.0 && n.commission == 0.0)
      && n.realized == p.realized + (fill.price - p.average) * fill.quantity - fill.commission - (p.commission - n.commission)
  }

  lemma SoldMoves(p: PositionState, fill: PaperFill)
    requires fill.side.Sell? && 0.0 < fill.quantity <= p.quantity
    ensures PositionMoved(p, Sold(p, fill.quantity, fill.price, fill.commission), fill)
  {
    var share := p.commission * fill.quantity / p.quantity;
    DivideBack(p.commission * fill.quantity, p.quantity);
    if fill.quantity == p.quantity { assert share * p.quantity == p.commission * p.quantity; WholeShare(share, p.commission, p.quantity); }
  }

  lemma WholeShare(share: real, whole: real, quantity: real)
    requires quantity > 0.0 && share * quantity == whole * quantity
    ensures share == whole
  {
    assert (share - whole) * quantity == 0.0;
  }

  lemma BoughtMoves(p: PositionState, fill: PaperFill)
    requires fill.side.Buy? && fill.quantity > 0.0 && p.quantity >= 0.0
    ensures PositionMoved(p, Bought(p, fill.quantity, fill.price, fill.commission), fill)
  {
    DivideBack(p.quantity * p.average + fill.price * fill.quantity, p.quantity + fill.quantity);
  }

  /** An executed order moves exactly its own symbol's position, by that arithmetic. */
  lemma ExecuteMovesPosition(s: State, fill: PaperFill)
    requires NonNegative(s) && fill.symbol in s.positions && fill.quantity > 0.0
    requires fill.side.Sell? ==> fill.quantity <= s.positions[fill.symbol].quantity
    ensures var t := Execute(s, fill);
      && t.positions.Keys == s.positions.Keys
      && PositionMoved(s.positions[fill.symbol], t.positions[fill.symbol], fill)
      && forall k :: k in s.positions && k != fill.symbol ==> t.positions[k] == s.positions[k]
  {
    if fill.side.Buy? { BoughtMoves(s.positions[fill.symbol], fill); } else { SoldMoves(s.positions[fill.symbol], fill); }
  }

  // ---- Closed accounts ----

  /** What is not held carries no entry commission. */
  ghost predicate NoResidue(s: State) {
    forall k :: k in s.positions && s.positions[k].quantity == 0.0 ==> s.positions[k].commission == 0.0
  }

  lemma ExecuteLeavesNoResidue(s: State, fill: PaperFill)
    requires NonNegative(s) && NoResidue(s) && fill.symbol in s.positions && fill.quantity > 0.0
    requires fill.side.Sell? ==> fill.quantity <= s.positions[fill.symbol].quantity
    ensures NoResidue(Execute(s, fill))
  {
    ExecuteMovesPosition(s, fill);
  }

  lemma SubmitLeavesNoResidue(c: Config, s: State, order: PaperOrder, bar: Bar)
    requires NonNegative(s) && NoResidue(s)
    ensures NoResidue(Submit(c, s, order, bar).0)
  {
    var looked, fill := Lookup(s, order.symbol), FillOf(c, order, bar);
    assert NoResidue(looked);
    QuantityBelowOrder(c, order, bar);
    if Refuses(looked, order, fill).None? { ExecuteLeavesNoResidue(looked, fill); }
  }

  lemma {:induction false} RunLeavesNoResidue(c: Config, ops: seq<Operation>)
    requires ConfigOk(c) && forall op :: op in ops ==> BarOk(op.bar)
    ensures NoResidue(RunOps(c, ops))
  {
    if ops != [] {
      var front, op := ops[..|ops| - 1], ops[|ops| - 1];
      RunLeavesNoResidue(c, front);
      if op.SubmitOp? { SubmitLeavesNoResidue(c, RunOps(c, front), op.order, op.bar); }
    }
  }

  lemma {:induction false} SumOfZeros(m: map<Symbol, PositionState>, f: (Symbol, PositionState) -> real)
    requires forall k :: k in m ==> f(k, m[k]) == 0.0
    ensures SumOf(m, f) == 0.0
    decreases |m|
  {
    if m != map[] {
      var k :| k in m;
      SumOfRemove(m, k, f);
      SumOfZeros(m - {k}, f);
    }
  }

  lemma FlatSums(s: State)
    requires NoResidue(s) && forall k :: k in s.positions ==> s.positions[k].quantity == 0.0
    ensures CostBasis(s) == 0.0 && EntryCommissions(s) == 0.0
  {
    SumOfZeros(s.positions, (k, p: PositionState) => p.quantity * p.average);
    SumOfZeros(s.positions, (k, p: PositionState) => p.commission);
  }

  /** Once nothing is held the cash is the starting cash plus everything realized. */
  lemma FlatAccountIsCash(c: Config, ops: seq<Operation>)
    requires ConfigOk(c) && forall op :: op in ops ==> BarOk(op.bar)
    requires forall k :: Held(RunOps(c, ops), k) == 0.0
    ensures RunOps(c, ops).cash == c.starting + Realized(RunOps(c, ops))
  {
    var s := RunOps(c, ops);
    RunLeavesNoResidue(c, ops);
    AccountingIdentity(c, ops);
    forall k | k in s.positions ensures s.positions[k].quantity == 0.0 { assert Held(s, k) == 0.0; }
    FlatSums(s);
  }

  // ---- The high watermark ----

  /** The n-th operation marked the account: a mark, or an order that was executed now. */
  ghost predicate Marks(c: Config, ops: seq<Operation>, n: int)
    requires ConfigOk(c) && forall op :: op in ops ==> BarOk(op.bar)
  {
    0 <= n < |ops|
    && var before := RunOps(c, ops[..n]);
       ops[n].SubmitOp? ==> ops[n].order.key !in before.fills && Submit(c, before, ops[n].order, ops[n].bar).1.Executed?
  }

  ghost function EquityAfter(c: Config, ops: seq<Operation>, n: int): real
    requires ConfigOk(c) && (forall op :: op in ops ==> BarOk(op.bar)) && 0 <= n < |ops|
  {
    Equity(RunOps(c, ops[..n + 1]))
  }

  lemma MarkRaises(s: State, bar: Bar)
    ensures var t := Mark(s, bar); t.high == if s.high < Equity(t) then Equity(t) else s.high
  {
    var t := Mark(s, bar);
    SumOfSame(t.positions, Worth(t), Worth(t.(high := s.high)));
  }

  lemma SubmitRaises(c: Config, s: State, order: PaperOrder, bar: Bar)
    requires NonNegative(s)
    ensures var (t, r) := Submit(c, s, order, bar);
      if r.Executed? && order.key !in s.fills then t.high == (if s.high < Equity(t) then Equity(t) else s.high)
      else t.high == s.high
  {
    var looked, fill := Lookup(s, order.symbol), FillOf(c, order, bar);
    QuantityBelowOrder(c, order, bar);
    if Refuses(looked, order, fill).None? { MarkRaises(Execute(looked, fill).(fills := looked.fills[order.key := fill]), bar); }
  }

  lemma StepRaises(c: Config, ops: seq<Operation>)
    requires ConfigOk(c) && (forall op :: op in ops ==> BarOk(op.bar)) && ops != []
    ensures var s, t, last := RunOps(c, ops[..|ops| - 1]), RunOps(c, ops), |ops| - 1;
      t.high == if Marks(c, ops, last) && s.high < EquityAfter(c, ops, last) then EquityAfter(c, ops, last) else s.high
  {
    var s, op := RunOps(c, ops[..|ops| - 1]), ops[|ops| - 1];
    assert ops[..|ops|] == ops;
    if op.SubmitOp? { SubmitRaises(c, s, op.order, op.bar); } else { MarkRaises(s, op.bar); }
  }

  lemma MarksFront(c: Config, ops: seq<Operation>, n: int)
    requires ConfigOk(c) && (forall op :: op in ops ==> BarOk(op.bar)) && 0 <= n < |ops| - 1
    ensures Marks(c, ops, n) <==> Marks(c, ops[..|ops| - 1], n)
    ensures EquityAfter(c, ops, n) == EquityAfter(c, ops[..|ops| - 1], n)
  {
    assert ops[..|ops| - 1][..n] == ops[..n] && ops[..|ops| - 1][..n + 1] == ops[..n + 1];
  }

  ghost predicate Highest(c: Config, ops: seq<Operation>, high: real)
    requires ConfigOk(c) && forall op :: op in ops ==> BarOk(op.bar)
  {
    && c.starting <= high && (forall n :: Marks(c, ops, n) ==> EquityAfter(c, ops, n) <= high)
    && (high == c.starting || exists n :: Marks(c, ops, n) && high == EquityAfter(c, ops, n))
  }

  lemma HighestStep(c: Config, ops: seq<Operation>, before: real, high: real)
    requires ConfigOk(c) && (forall op :: op in ops ==> BarOk(op.bar)) && ops != []
    requires Highest(c, ops[..|ops| - 1], before)
    requires var last := |ops| - 1;
      high == if Marks(c, ops, last) && before < EquityAfter(c, ops, last) then EquityAfter(c, ops, last) else before
    ensures Highest(c, ops, high)
  {
    var front, last := ops[..|ops| - 1], |ops| - 1;
    forall n | Marks(c, ops, n) ensures EquityAfter(c, ops, n) <= high {
      if n < last { MarksFront(c, ops, n); }
    }
    if high == before != c.starting {
      var n :| Marks(c, front, n) && before == EquityAfter(c, front, n);
      MarksFront(c, ops, n);
    }
  }

  /** The high watermark is the greatest of the starting cash and the equity after every operation that
      marked the account. */
  lemma {:induction false} WatermarkIsGreatest(c: Config, ops: seq<Operation>)
    requires ConfigOk(c) && forall op :: op in ops ==> BarOk(op.bar)
    ensures Highest(c, ops, RunOps(c, ops).high)
  {
    if ops != [] {
      var front := ops[..|ops| - 1];
      WatermarkIsGreatest(c, front);
      StepRaises(c, ops);
      HighestStep(c, ops, RunOps(c, front).high, RunOps(c, ops).high);
    }
  }

  /** The first mark of a session keeps the equity the day began with; later ones leave it alone. */
  lemma MarkKeepsDayStart(s: State, bar: Bar)
    ensures var t := Mark(s, bar);
      && t.session == Some(bar.at / DAY) && t.marks == s.marks[bar.symbol := bar.close]
      && t.dayStart == if s.session == t.session then s.dayStart else Equity(s)
  {
  }

  // ---- Equity ----

  lemma OneTermDiffers(m: map<Symbol, PositionState>, k: Symbol,
                       f: (Symbol, PositionState) -> real, g: (Symbol, PositionState) -> real)
    requires k in m && forall j :: j in m && j != k ==> f(j, m[j]) == g(j, m[j])
    ensures SumOf(m, g) == SumOf(m, f) + g(k, m[k]) - f(k, m[k])
  {
    SumOfRemove(m, k, f);
    SumOfRemove(m, k, g);
    SumOfSame(m - {k}, f, g);
  }

  /** Moving one mark moves the equity by what is held of that symbol times the move. */
  lemma EquityFollowsMarks(s: State, t: State, k: Symbol)
    requires k in s.marks && k in t.marks && t == s.(marks := s.marks[k := t.marks[k]])
    ensures Equity(t) == Equity(s) + Held(s, k) * (t.marks[k] - s.marks[k])
  {
    if k in s.positions {
      OneTermDiffers(s.positions, k, Worth(s), Worth(t));
      MarkDifference(s.positions[k].quantity, t.marks[k], s.marks[k]);
    } else {
      SumOfSame(s.positions, Worth(s), Worth(t));
    }
  }

  lemma MarkDifference(quantity: real, x: real, y: real)
    ensures quantity * x == quantity * y + quantity * (x - y)
  {
  }

  lemma FlatEquityIsCash(s: State)
    requires forall k :: Held(s, k) == 0.0
    ensures Equity(s) == s.cash
  {
    forall k | k in s.positions ensures WorthAt(s.marks, k, s.positions[k]) == 0.0 { assert Held(s, k) == 0.0; }
    SumOfZeros(s.positions, Worth(s));
  }

  // ---- Account readings ----

  ghost predicate WithinHalfUnit(shown: real, amount: real) { amount - 0.00005 <= shown <= amount + 0.00005 }

  lemma MoneyIsNear(x: real)
    ensures WithinHalfUnit(Money(x), x)
  {
  }

  /** A reading of a settled account shows cash, equity, day start and watermark to half a ten-thousandth and
      exactly what is held; it is refused when one of the last three rounds to nothing or less. */
  lemma AccountReads(s: State)
    requires Settled(s)
    ensures TakeAccount(s).0 == s
    ensures TakeAccount(s).1.None? <==> Money(Equity(s)) <= 0.0 || Money(s.dayStart) <= 0.0 || Money(s.high) <= 0.0
    ensures TakeAccount(s).1.Some? ==>
      var view := TakeAccount(s).1.value;
      && WithinHalfUnit(view.cash, s.cash) && WithinHalfUnit(view.equity, Equity(s))
      && WithinHalfUnit(view.dayStart, s.dayStart) && WithinHalfUnit(view.high, s.high)
      && forall k :: Held(s, k) == if k in view.holdings then view.holdings[k] else 0.0
  {
    SettledAccountIsIdle(s);
    SumOfSame(s.positions, Worth(s), MarkedWorth(s));
    MoneyIsNear(s.cash);
    MoneyIsNear(Equity(s));
    MoneyIsNear(s.dayStart);
    MoneyIsNear(s.high);
  }
}
