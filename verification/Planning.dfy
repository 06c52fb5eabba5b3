/** What the planned order is for: one whole target quantity that the target weight buys at the close. */
module Planning {
  import opened Orders
  import opened PaperBroker
  import opened PaperCosts
  import opened Recovery
  import opened Engine

  /** The whole number of shares a notional buys, towards zero. */
  ghost predicate Target(k: int, notional: real, close: real) {
    if notional >= 0.0 then k as real * close <= notional < (k as real + 1.0) * close
    else (k as real - 1.0) * close < notional <= k as real * close
  }

  lemma Scaled(a: real, x: real, close: real, notional: real)
    requires close > 0.0 && x * close == notional
    ensures a <= x <==> a * close <= notional
  {
    if a <= x { assert a * close <= x * close; } else { assert x * close < a * close; }
  }

  lemma FloorIsTarget(notional: real, close: real, k: int)
    requires close > 0.0 && notional >= 0.0
    ensures Target(k, notional, close) <==> k == (notional / close).Floor
  {
    var x := notional / close;
    DivideBack(notional, close);
    Scaled(k as real, x, close, notional);
    Scaled(k as real + 1.0, x, close, notional);
  }

  lemma Mirrored(notional: real, close: real, k: int)
    requires notional < 0.0
    ensures Target(k, notional, close) <==> Target(-k, -notional, close)
  {
  }

  lemma TargetIsTruncated(notional: real, close: real, k: int)
    requires close > 0.0
    ensures Target(k, notional, close) <==> k as real == Truncate(notional / close)
  {
    if notional >= 0.0 {
      FloorIsTarget(notional, close, k);
      assert notional / close >= 0.0;
    } else {
      Mirrored(notional, close, k);
      FloorIsTarget(-notional, close, -k);
      assert notional / close < 0.0 && -notional / close == -(notional / close);
    }
  }

  function WholeShares(notional: real, close: real): int
    requires close > 0.0
  {
    var x := notional / close;
    if x >= 0.0 then x.Floor else -((-x).Floor)
  }

  /** Every notional has exactly one target. */
  lemma OneTarget(notional: real, close: real, k: int)
    requires close > 0.0
    ensures Target(k, notional, close) <==> k == WholeShares(notional, close)
  {
    TargetIsTruncated(notional, close, k);
  }

  function HeldIn(account: AccountView, symbol: Symbol): real {
    if symbol in account.holdings then account.holdings[symbol] else 0.0
  }

  function Change(order: PaperOrder): real { if order.side.Buy? then order.quantity else -order.quantity }

  ghost predicate Aims(plan: Option<PaperOrder>, key: DecisionKey, held: real, k: int) {
    && (plan.None? <==> held == k as real)
    && (plan.Some? ==>
          var order := plan.value;
          && order.quantity > 0.0 && order.market && order.symbol == key.symbol && order.key == key
          && (order.side.Buy? <==> held < k as real)
          && held + Change(order) == k as real)
  }

  /** No order is planned exactly when the holding is the target; an order is a market order of a positive
      quantity that, filled whole, takes the holding to the target; it buys exactly when that is more. */
  lemma PlanReachesTarget(p: Plan, equity: real, account: AccountView, bar: Bar, weight: real, k: int)
    requires bar.close > 0.0 && Target(k, equity * weight, bar.close)
    ensures Aims(PlanOrder(p, equity, account, bar, weight), DecisionKey(p.strategyId, bar.symbol, bar.at, weight),
                 HeldIn(account, bar.symbol), k)
  {
    TargetIsTruncated(equity * weight, bar.close, k);
  }

  /** Once the planned order is filled whole, the same equity and bar plan nothing more. */
  lemma PlanSettles(p: Plan, equity: real, account: AccountView, after: AccountView, bar: Bar, weight: real)
    requires bar.close > 0.0 && PlanOrder(p, equity, account, bar, weight).Some?
    requires HeldIn(after, bar.symbol)
          == HeldIn(account, bar.symbol) + Change(PlanOrder(p, equity, account, bar, weight).value)
    ensures PlanOrder(p, equity, after, bar, weight).None?
  {
    var k := WholeShares(equity * weight, bar.close);
    OneTarget(equity * weight, bar.close, k);
    PlanReachesTarget(p, equity, account, bar, weight, k);
    PlanReachesTarget(p, equity, after, bar, weight, k);
  }

  // ---- A bar of the run ----

  ghost predicate Between(x: real, a: real, b: real) { a <= x <= b || b <= x <= a }

  /** What one processed bar does to the holding of its symbol when the target is `k` shares: nothing where
      the risk check refuses; otherwise it moves towards the target without passing it, there and nowhere
      else, and whole if the fill is not cut short. */
  ghost predicate MovesTo(before: State, after: State, symbol: Symbol, k: int, ev: seq<Event>) {
    var was, now := Held(before, symbol), Held(after, symbol);
    && (forall s :: s != symbol ==> Held(after, s) == Held(before, s))
    && (!HasFill(ev) ==> now == was && (RiskEvent(false) in ev || was == k as real))
    && (HasFill(ev) ==>
          && now != was && Between(now, was, k as real)
          && (ev[3].fill.quantity == (if was < k as real then k as real - was else was - k as real) <==> now == k as real))
  }

  lemma MarkHolds(s: State, bar: Bar)
    requires Opens(Mark(s, bar))
    ensures forall k :: Held(Mark(s, bar), k) == Held(s, k)
    ensures HeldIn(TakeAccount(Mark(s, bar)).1.value, bar.symbol) == Held(s, bar.symbol)
  {
  }

  lemma QuietDecision(p: Plan, s: State, account: AccountView, bar: Bar, weight: real)
    requires ConfigOk(p.config) && BarOk(bar) && NonNegative(s) && TakeAccount(s) == (s, Some(account))
    ensures var plan := PlanOrder(p, account.equity, account, bar, weight);
      plan.Some? && !p.risk(plan.value, bar, account) ==> RiskEvent(false) in Decide(p, s, account, bar, weight).1
  {
    var plan := PlanOrder(p, account.equity, account, bar, weight);
    if plan.Some? && !p.risk(plan.value, bar, account) {
      assert Decide(p, s, account, bar, weight).1 == [RiskEvent(false), Progress(bar.at)];
    }
  }

  ghost predicate Planned(p: Plan, account: AccountView, bar: Bar, weight: real)
    requires bar.close > 0.0
  {
    PlanOrder(p, account.equity, account, bar, weight).Some?
  }

  lemma QuietEvents(p: Plan, s: State, bars: seq<Bar>, i: nat)
    requires Ready(p, bars) && i < |bars| && AccountOk(p.config, s) && Settled(s) && p.strategy(bars[..i + 1]).Some?
    requires !SubmitsAt(p, Mark(s, bars[i]), bars, i) && Process(p, s, bars, i).0.Some?
    ensures Opens(Mark(s, bars[i]))
    ensures var (t, ev) := Process(p, s, bars, i);
      && t == Some(Mark(s, bars[i])) && !HasFill(ev)
      && (Planned(p, TakeAccount(Mark(s, bars[i])).1.value, bars[i], p.strategy(bars[..i + 1]).value) ==> RiskEvent(false) in ev)
  {
    var s1, bar := Mark(s, bars[i]), bars[i];
    QuietBarGood(p, s, bars, i);
    MarkKeeps(p.config, s, bar);
    var account, weight := TakeAccount(s1).1.value, p.strategy(bars[..i + 1]).value;
    ProcessDecides(p, s, bars, i, s1, account, weight);
    QuietDecision(p, s1, account, bar, weight);
  }

  lemma QuietMoves(s: State, t: State, bar: Bar, plan: Option<PaperOrder>, key: DecisionKey, k: int, ev: seq<Event>)
    requires key.symbol == bar.symbol && Aims(plan, key, Held(s, bar.symbol), k)
    requires t == Mark(s, bar) && !HasFill(ev) && (plan.Some? ==> RiskEvent(false) in ev)
    ensures MovesTo(s, t, bar.symbol, k, ev)
  {
    MarkMovesNothing(s, bar);
  }

  lemma FillMoves(s: State, t: State, order: PaperOrder, fill: PaperFill, key: DecisionKey, k: int, ev: seq<Event>)
    requires Traded(s, t, order, fill) && 0.0 < fill.quantity <= order.quantity
    requires Aims(Some(order), key, Held(s, order.symbol), k)
    requires HasFill(ev) && ev[3].fill == fill
    ensures MovesTo(s, t, order.symbol, k, ev)
  {
  }

  lemma SubmittedFill(p: Plan, s: State, bars: seq<Bar>, i: nat, order: PaperOrder)
    requires Ready(p, bars) && i < |bars| && AccountOk(p.config, s) && Settled(s) && Fresh(bars, s, i)
    requires SubmitsAt(p, Mark(s, bars[i]), bars, i) && order == OrderAt(p, Mark(s, bars[i]), bars, i) && order.market
    requires Process(p, s, bars, i).0.Some?
    ensures var (t, ev) := Process(p, s, bars, i);
      && HasFill(ev) && 0.0 < ev[3].fill.quantity <= order.quantity
      && Traded(Mark(s, bars[i]), t.value, order, ev[3].fill)
  {
    var s1, bar := Mark(s, bars[i]), bars[i];
    SubmittingBar(p, s, bars, i);
    var (u, r) := Submit(p.config, s1, order, bar);
    KeyIsFresh(bars, s1, i, order.key);
    SubmitFills(p.config, s1, order, bar);
    QuantityBelowOrder(p.config, order, bar);
    SubmittedEnds(order, r.fill, u, bar.at);
    SubmitGood(p.config, s1, order, bar);
  }

  lemma PlannedBarMoves(p: Plan, s: State, bars: seq<Bar>, i: nat, account: AccountView, weight: real,
                        plan: Option<PaperOrder>, key: DecisionKey, k: int)
    requires Ready(p, bars) && i < |bars| && GoodAt(p, bars, s, i) && Process(p, s, bars, i).0.Some?
    requires TakeAccount(Mark(s, bars[i])) == (Mark(s, bars[i]), Some(account)) && p.strategy(bars[..i + 1]) == Some(weight)
    requires plan == PlanOrder(p, account.equity, account, bars[i], weight)
    requires key.symbol == bars[i].symbol && Aims(plan, key, Held(s, bars[i].symbol), k)
    ensures MovesTo(s, Process(p, s, bars, i).0.value, bars[i].symbol, k, Process(p, s, bars, i).1)
  {
    var (t, ev) := Process(p, s, bars, i);
    if SubmitsAt(p, Mark(s, bars[i]), bars, i) {
      SubmittedFill(p, s, bars, i, plan.value);
      MarkMovesNothing(s, bars[i]);
      FillMoves(Mark(s, bars[i]), t.value, plan.value, ev[3].fill, key, k, ev);
    } else {
      QuietEvents(p, s, bars, i);
      QuietMoves(s, t.value, bars[i], plan, key, k, ev);
    }
  }

  lemma AccountHolds(s: State, bar: Bar, account: AccountView)
    requires Settled(s) && TakeAccount(Mark(s, bar)).1 == Some(account)
    ensures TakeAccount(Mark(s, bar)) == (Mark(s, bar), Some(account)) && HeldIn(account, bar.symbol) == Held(s, bar.symbol)
  {
    MarkGood(s, bar);
    MarkHolds(s, bar);
  }

  lemma BarAims(p: Plan, s: State, bars: seq<Bar>, i: nat, account: AccountView, weight: real, k: int, plan: Option<PaperOrder>)
    requires Ready(p, bars) && i < |bars| && Target(k, account.equity * weight, bars[i].close)
    requires plan == PlanOrder(p, account.equity, account, bars[i], weight)
    requires HeldIn(account, bars[i].symbol) == Held(s, bars[i].symbol)
    ensures Aims(plan, DecisionKey(p.strategyId, bars[i].symbol, bars[i].at, weight), Held(s, bars[i].symbol), k)
  {
    PlanReachesTarget(p, account.equity, account, bars[i], weight, k);
  }

  /** A processed bar moves the holding towards the whole quantity its strategy's weight of the marked
      equity buys at the close, never past it. */
  lemma BarMovesToTarget(p: Plan, s: State, bars: seq<Bar>, i: nat, account: AccountView, weight: real, k: int)
    requires Ready(p, bars) && i < |bars| && GoodAt(p, bars, s, i) && Process(p, s, bars, i).0.Some?
    requires TakeAccount(Mark(s, bars[i])).1 == Some(account) && p.strategy(bars[..i + 1]) == Some(weight)
    requires Target(k, account.equity * weight, bars[i].close)
    ensures MovesTo(s, Process(p, s, bars, i).0.value, bars[i].symbol, k, Process(p, s, bars, i).1)
  {
    var plan := PlanOrder(p, account.equity, account, bars[i], weight);
    AccountHolds(s, bars[i], account);
    BarAims(p, s, bars, i, account, weight, k, plan);
    PlannedBarMoves(p, s, bars, i, account, weight, plan, DecisionKey(p.strategyId, bars[i].symbol, bars[i].at, weight), k);
  }

  /** So does every bar of an uninterrupted run. */
  lemma RunMovesToTargets(p: Plan, bars: seq<Bar>, i: nat, s: State, t: State, account: AccountView, weight: real, k: int)
    requires Ready(p, bars) && i < |bars|
    requires StateBefore(StepOf(p, bars), Initial(p.config), i) == Some(s)
    requires StateBefore(StepOf(p, bars), Initial(p.config), i + 1) == Some(t)
    requires TakeAccount(Mark(s, bars[i])).1 == Some(account) && p.strategy(bars[..i + 1]) == Some(weight)
    requires Target(k, account.equity * weight, bars[i].close)
    ensures MovesTo(s, t, bars[i].symbol, k, StepOf(p, bars)(s, i).1)
  {
    RunIsGood(p, bars, i);
    BarMovesToTarget(p, s, bars, i, account, weight, k);
  }

  /** A bar whose strategy has no intent leaves every holding alone. */
  lemma IdleBarHolds(p: Plan, s: State, bars: seq<Bar>, i: nat)
    requires Ready(p, bars) && i < |bars| && GoodAt(p, bars, s, i) && Process(p, s, bars, i).0.Some?
    requires p.strategy(bars[..i + 1]).None?
    ensures SameHeld(s, Process(p, s, bars, i).0.value)
  {
    QuietBarGood(p, s, bars, i);
    MarkMovesNothing(s, bars[i]);
  }

  // ---- The risk check ----

  /** What an event of a bar says about the planned order: it was judged as recorded, and submitted and
      filled only after approval. */
  ghost predicate Judged(p: Plan, bar: Bar, account: AccountView, plan: Option<PaperOrder>, ev: seq<Event>, n: nat)
    requires n < |ev|
  {
    match ev[n]
    case RiskEvent(approved) => plan.Some? && approved == p.risk(plan.value, bar, account)
    case Submitted(order) => plan == Some(order) && p.risk(order, bar, account) && n > 0 && ev[n - 1] == RiskEvent(true)
    case FilledEvent(fill) => n > 0 && ev[n - 1].Submitted? && fill.key == ev[n - 1].order.key
    case _ => true
  }

  lemma QuietJudged(p: Plan, s: State, account: AccountView, bar: Bar, weight: real, plan: Option<PaperOrder>)
    requires ConfigOk(p.config) && BarOk(bar) && NonNegative(s) && TakeAccount(s) == (s, Some(account))
    requires plan == PlanOrder(p, account.equity, account, bar, weight)
    requires plan.None? || !p.risk(plan.value, bar, account)
    ensures var ev := [IntentEvent(DecisionOf(p, bar, weight))] + Decide(p, s, account, bar, weight).1;
      forall n: nat :: n < |ev| ==> Judged(p, bar, account, plan, ev, n)
  {
    var ev := Decide(p, s, account, bar, weight).1;
    assert ev == if plan.None? then [Progress(bar.at)] else [RiskEvent(false), Progress(bar.at)];
  }

  lemma LeadingJudged(p: Plan, bar: Bar, account: AccountView, order: PaperOrder, fill: PaperFill, t: State)
    requires p.risk(order, bar, account) && fill.key == order.key
    ensures var lead := Leading(order); forall n: nat :: n < |lead| ==> Judged(p, bar, account, Some(order), lead, n)
    ensures var ev := Filling(Leading(order), fill, t, bar.at).1;
      forall n: nat :: n < |ev| ==> Judged(p, bar, account, Some(order), ev, n)
  {
  }

  /** Nothing is submitted or filled that the risk check of this bar's account did not approve, and what the
      ledger says of the check is what it found. */
  lemma OnlyApprovedOrdersTrade(p: Plan, s: State, bars: seq<Bar>, i: nat, account: AccountView, weight: real, plan: Option<PaperOrder>)
    requires Ready(p, bars) && i < |bars| && GoodAt(p, bars, s, i)
    requires TakeAccount(Mark(s, bars[i])).1 == Some(account) && p.strategy(bars[..i + 1]) == Some(weight)
    requires plan == PlanOrder(p, account.equity, account, bars[i], weight)
    ensures var ev := Process(p, s, bars, i).1;
      forall n: nat :: n < |ev| ==> Judged(p, bars[i], account, plan, ev, n)
  {
    var s1, bar := Mark(s, bars[i]), bars[i];
    MarkGood(s, bar);
    MarkKeeps(p.config, s, bar);
    if SubmitsAt(p, s1, bars, i) {
      SubmittingBar(p, s, bars, i);
      var order := plan.value;
      var (t, r) := Submit(p.config, s1, order, bar);
      if r.Executed? {
        KeyIsFresh(bars, s1, i, order.key);
        LeadingJudged(p, bar, account, order, r.fill, t);
      }
    } else {
      ProcessDecides(p, s, bars, i, s1, account, weight);
      QuietJudged(p, s1, account, bar, weight, plan);
    }
  }
}
