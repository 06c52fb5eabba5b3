/** The bar engine: one bar's work as a step of Recovery, and the engine object that performs it. */
module Engine {
  import opened Orders
  import opened PaperBroker
  import opened Recovery

  /** One configured run. The strategy is a function of the bars seen so far and the risk check one
      of the order, the bar and the account. */
  datatype Plan = Plan(
    config: Config, strategyId: string, strategy: seq<Bar> -> Option<real>,
    risk: (PaperOrder, Bar, AccountView) -> bool)

  ghost predicate BarsOk(bars: seq<Bar>) {
    && (forall i :: 0 <= i < |bars| ==> BarOk(bars[i]) && bars[i].symbol == bars[0].symbol)
    && Increasing(bars)
  }

  ghost predicate Ready(p: Plan, bars: seq<Bar>) { ConfigOk(p.config) && BarsOk(bars) }

  function Truncate(x: real): real { if x >= 0.0 then x.Floor as real else -((-x).Floor as real) }

  function DecisionOf(p: Plan, bar: Bar, weight: real): DecisionKey {
    DecisionKey(p.strategyId, bar.symbol, bar.at, weight)
  }

  function PlanOrder(p: Plan, equity: real, account: AccountView, bar: Bar, weight: real): Option<PaperOrder>
    requires bar.close > 0.0
  {
    var current := if bar.symbol in account.holdings then account.holdings[bar.symbol] else 0.0;
    var difference := Truncate(equity * weight / bar.close) - current;
    if difference == 0.0 then None
    else Some(PaperOrder(DecisionOf(p, bar, weight), bar.symbol, if difference > 0.0 then Buy else Sell,
                         if difference > 0.0 then difference else -difference, true))
  }

  /** What follows an approved order's submission record. */
  ghost function Place(c: Config, s: State, order: PaperOrder, bar: Bar): (Option<State>, seq<Event>)
    requires NonNegative(s)
  {
    var (s3, result) := Submit(c, s, order, bar);
    if result.Raised? then (None, [])
    else
      var (s4, updated) := TakeAccount(s3);
      if updated.None? then (None, [FilledEvent(result.fill)])
      else (Some(s4), [FilledEvent(result.fill), Checkpoint(s4, bar.at), Progress(bar.at)])
  }

  /** What follows an intent. */
  ghost function Decide(p: Plan, s: State, account: AccountView, bar: Bar, weight: real): (Option<State>, seq<Event>)
    requires ConfigOk(p.config) && BarOk(bar) && NonNegative(s)
  {
    var (s2, again) := TakeAccount(s);
    if again.None? then (None, [])
    else
      var order := PlanOrder(p, account.equity, again.value, bar, weight);
      if order.None? then (Some(s2), [Progress(bar.at)])
      else if !p.risk(order.value, bar, account) then (Some(s2), [RiskEvent(false), Progress(bar.at)])
      else
        var (t, ev) := Place(p.config, s2, order.value, bar);
        (t, [RiskEvent(true), Submitted(order.value)] + ev)
  }

  /** What a bar does once its mark and the account reading have succeeded. */
  ghost function Act(p: Plan, s: State, account: AccountView, bar: Bar, weight: Option<real>): (Option<State>, seq<Event>)
    requires ConfigOk(p.config) && BarOk(bar) && NonNegative(s)
  {
    if weight.None? then (Some(s), [Progress(bar.at)])
    else
      var (t, ev) := Decide(p, s, account, bar, weight.value);
      (t, [IntentEvent(DecisionOf(p, bar, weight.value))] + ev)
  }

  /** The state after one bar, or None where the code raises, and what was appended until then. */
  ghost function Process(p: Plan, s: State, bars: seq<Bar>, i: nat): (Option<State>, seq<Event>)
    requires Ready(p, bars) && i < |bars| && AccountOk(p.config, s)
  {
    var (s1, account) := TakeAccount(Mark(s, bars[i]));
    if account.None? then (None, []) else Act(p, s1, account.value, bars[i], p.strategy(bars[..i + 1]))
  }

  lemma ProcessKeepsAccount(p: Plan, s: State, bars: seq<Bar>, i: nat)
    requires Ready(p, bars) && i < |bars| && AccountOk(p.config, s)
    ensures Process(p, s, bars, i).0.Some? ==> AccountOk(p.config, Process(p, s, bars, i).0.value)
  {
    var bar := bars[i];
    MarkKeeps(p.config, s, bar);
    var (s1, account) := TakeAccount(Mark(s, bar));
    var (s2, again) := TakeAccount(s1);
    var weight := p.strategy(bars[..i + 1]);
    if account.Some? && weight.Some? && again.Some? {
      var order := PlanOrder(p, account.value.equity, again.value, bar, weight.value);
      if order.Some? { SubmitKeeps(p.config, s2, order.value, bar); }
    }
  }

  ghost function StepOf(p: Plan, bars: seq<Bar>): Step
    requires Ready(p, bars)
  {
    (s: State, i: nat) => if i < |bars| && AccountOk(p.config, s) then Process(p, s, bars, i) else (None, [])
  }

  // ---- One bar keeps the contract ----

  /** Every fill so far belongs to an earlier bar. */
  ghost predicate Fresh(bars: seq<Bar>, s: State, i: nat) {
    forall key :: key in s.fills ==> exists j :: 0 <= j < i && j < |bars| && key.generatedAt == bars[j].at
  }

  lemma KeyIsFresh(bars: seq<Bar>, s: State, i: nat, key: DecisionKey)
    requires Increasing(bars) && i < |bars| && Fresh(bars, s, i) && key.generatedAt == bars[i].at
    ensures key !in s.fills
  {
  }

  lemma FillAdded(bars: seq<Bar>, s: State, t: State, i: nat, fill: PaperFill)
    requires Fresh(bars, s, i) && i < |bars| && t.fills == s.fills[fill.key := fill] && fill.key.generatedAt == bars[i].at
    ensures Fresh(bars, t, i + 1)
  {
  }

  lemma MarkGood(s: State, bar: Bar)
    requires Settled(s)
    ensures MarkedBy(Mark(s, bar), bar) && TakeAccount(Mark(s, bar)).0 == Mark(s, bar)
  {
    MarkSettles(s, bar);
    SettledAccountIsIdle(Mark(s, bar));
  }

  /** A successful fresh submission leaves the broker marked by the bar, with exactly one more fill. */
  lemma SubmitGood(c: Config, s: State, order: PaperOrder, bar: Bar)
    requires NonNegative(s) && MarkedBy(s, bar) && order.symbol == bar.symbol && order.key !in s.fills
    requires Submit(c, s, order, bar).1.Executed?
    ensures var (t, r) := Submit(c, s, order, bar);
      MarkedBy(t, bar) && t.fills == s.fills[order.key := r.fill] && r.fill.key == order.key
      && TakeAccount(t).0 == t
  {
    var u := Execute(Lookup(s, order.symbol), FillOf(c, order, bar));
    var v := u.(fills := s.fills[order.key := FillOf(c, order, bar)]);
    forall k | k in v.positions && v.positions[k].quantity != 0.0 ensures k in v.marks || k == bar.symbol {
      if k != bar.symbol { assert k in s.positions && s.positions[k].quantity != 0.0; }
    }
    MarkSettles(v, bar);
    SettledAccountIsIdle(Mark(v, bar));
  }

  /** A bar whose intent leads to no submission only marks the broker. */
  lemma QuietBarGood(p: Plan, s: State, bars: seq<Bar>, i: nat)
    requires Ready(p, bars) && i < |bars| && AccountOk(p.config, s) && Settled(s)
    requires !SubmitsAt(p, Mark(s, bars[i]), bars, i)
    ensures var (t, ev) := Process(p, s, bars, i);
      && Ends(ev, t, bars[i].at) && !HasFill(ev) && FillEvents(ev, bars[i].at)
      && (t.Some? ==> t.value == Mark(s, bars[i]) && MarkedBy(t.value, bars[i]) && Opens(t.value))
  {
    MarkGood(s, bars[i]);
    MarkKeeps(p.config, s, bars[i]);
  }

  /** The bar's plan reaches the broker: an intent, a nonzero difference and an approval. */
  ghost predicate SubmitsAt(p: Plan, s1: State, bars: seq<Bar>, i: nat)
    requires Ready(p, bars) && i < |bars|
  {
    var account := TakeAccount(s1).1;
    var weight := p.strategy(bars[..i + 1]);
    account.Some? && weight.Some?
    && var order := PlanOrder(p, account.value.equity, account.value, bars[i], weight.value);
       order.Some? && p.risk(order.value, bars[i], account.value)
  }

  ghost function OrderAt(p: Plan, s1: State, bars: seq<Bar>, i: nat): PaperOrder
    requires Ready(p, bars) && i < |bars| && SubmitsAt(p, s1, bars, i)
  {
    var account := TakeAccount(s1).1.value;
    PlanOrder(p, account.equity, account, bars[i], p.strategy(bars[..i + 1]).value).value
  }

  ghost function Filling(lead: seq<Event>, fill: PaperFill, t: State, at: int): (Option<State>, seq<Event>) {
    var (u, account) := TakeAccount(t);
    if account.None? then (None, lead + [FilledEvent(fill)])
    else (Some(u), lead + [FilledEvent(fill), Checkpoint(u, at), Progress(at)])
  }

  lemma DecideSubmits(p: Plan, s: State, account: AccountView, bar: Bar, weight: real, order: PaperOrder)
    requires ConfigOk(p.config) && BarOk(bar) && NonNegative(s) && TakeAccount(s) == (s, Some(account))
    requires PlanOrder(p, account.equity, account, bar, weight) == Some(order) && p.risk(order, bar, account)
    ensures var (t, r) := Submit(p.config, s, order, bar);
      var (out, ev) := Decide(p, s, account, bar, weight);
      var lead := [RiskEvent(true), Submitted(order)];
      && order.key == DecisionOf(p, bar, weight) && order.symbol == bar.symbol
      && (r.Raised? ==> out.None? && ev == lead)
      && (r.Executed? ==> (out, ev) == Filling(lead, r.fill, t, bar.at))
  {
    var (out, ev) := Place(p.config, s, order, bar);
    assert Decide(p, s, account, bar, weight) == (out, [RiskEvent(true), Submitted(order)] + ev);
  }

  lemma FillingAfter(e: Event, lead: seq<Event>, fill: PaperFill, t: State, at: int)
    ensures var (out, ev) := Filling(lead, fill, t, at); Filling([e] + lead, fill, t, at) == (out, [e] + ev)
  {
    var u := TakeAccount(t).0;
    var tail := [FilledEvent(fill), Checkpoint(u, at), Progress(at)];
    assert [e] + (lead + [FilledEvent(fill)]) == [e] + lead + [FilledEvent(fill)];
    assert [e] + (lead + tail) == [e] + lead + tail;
  }

  lemma SubmittingBar(p: Plan, s: State, bars: seq<Bar>, i: nat)
    requires Ready(p, bars) && i < |bars| && AccountOk(p.config, s) && Settled(s)
    requires SubmitsAt(p, Mark(s, bars[i]), bars, i)
    ensures AccountOk(p.config, Mark(s, bars[i])) && MarkedBy(Mark(s, bars[i]), bars[i])
    ensures var s1 := Mark(s, bars[i]);
      var order := OrderAt(p, s1, bars, i);
      var (t, r) := Submit(p.config, s1, order, bars[i]);
      var lead := Leading(order);
      && order.key == DecisionOf(p, bars[i], p.strategy(bars[..i + 1]).value) && order.symbol == bars[i].symbol
      && (r.Raised? ==> Process(p, s, bars, i) == (None, lead))
      && (r.Executed? ==> Process(p, s, bars, i) == Filling(lead, r.fill, t, bars[i].at))
  {
    MarkGood(s, bars[i]);
    MarkKeeps(p.config, s, bars[i]);
    var s1, bar := Mark(s, bars[i]), bars[i];
    var account, weight, order := TakeAccount(s1).1.value, p.strategy(bars[..i + 1]).value, OrderAt(p, s1, bars, i);
    DecideSubmits(p, s1, account, bar, weight, order);
    var (t, r) := Submit(p.config, s1, order, bar);
    ProcessDecides(p, s, bars, i, s1, account, weight);
    LeadingSplits(order);
    if r.Executed? { FillingAfter(IntentEvent(order.key), [RiskEvent(true), Submitted(order)], r.fill, t, bar.at); }
  }

  lemma LeadingSplits(order: PaperOrder)
    ensures [IntentEvent(order.key)] + [RiskEvent(true), Submitted(order)] == Leading(order)
  {
  }

  lemma ProcessDecides(p: Plan, s: State, bars: seq<Bar>, i: nat, s1: State, account: AccountView, weight: real)
    requires Ready(p, bars) && i < |bars| && AccountOk(p.config, s) && NonNegative(s1)
    requires TakeAccount(Mark(s, bars[i])) == (s1, Some(account)) && p.strategy(bars[..i + 1]) == Some(weight)
    ensures var (t, ev) := Decide(p, s1, account, bars[i], weight);
      Process(p, s, bars, i) == (t, [IntentEvent(DecisionOf(p, bars[i], weight))] + ev)
  {
  }

  function Leading(order: PaperOrder): seq<Event> { [IntentEvent(order.key), RiskEvent(true), Submitted(order)] }

  lemma SubmittedEnds(order: PaperOrder, fill: PaperFill, t: State, at: int)
    requires fill.key.generatedAt == at
    ensures var ev := Leading(order) + [FilledEvent(fill)];
      Ends(ev, None, at) && FillEvents(ev, at) && HasFill(ev) && ev[3].fill == fill
    ensures var ev := Leading(order) + [FilledEvent(fill), Checkpoint(t, at), Progress(at)];
      Ends(ev, Some(t), at) && FillEvents(ev, at) && HasFill(ev) && ev[3].fill == fill
  {
  }

  /** What is known of a bar's outcome, and the fill it leaves in the broker, if any. */
  ghost predicate BarGood(p: Plan, s: State, bars: seq<Bar>, i: nat, t: Option<State>, ev: seq<Event>)
    requires Ready(p, bars) && i < |bars|
  {
    && Ends(ev, t, bars[i].at) && FillEvents(ev, bars[i].at)
    && (t.Some? ==> MarkedBy(t.value, bars[i]) && Fresh(bars, t.value, i + 1) && Opens(t.value))
    && (t.Some? && !HasFill(ev) ==> t.value == Mark(s, bars[i]))
    && (t.Some? && HasFill(ev) ==> FilledBy(p, t.value, bars, i, ev[3].fill))
  }

  ghost predicate FilledBy(p: Plan, t: State, bars: seq<Bar>, i: nat, fill: PaperFill)
    requires Ready(p, bars) && i < |bars|
  {
    var weight := p.strategy(bars[..i + 1]);
    weight.Some? && var key := DecisionOf(p, bars[i], weight.value); key == fill.key && key in t.fills && t.fills[key] == fill
  }

  lemma FillingGood(p: Plan, s: State, t: State, bars: seq<Bar>, i: nat, order: PaperOrder, fill: PaperFill)
    requires Ready(p, bars) && i < |bars| && MarkedBy(t, bars[i]) && Fresh(bars, t, i + 1) && TakeAccount(t).0 == t
    requires FilledBy(p, t, bars, i, fill)
    ensures var (out, ev) := Filling(Leading(order), fill, t, bars[i].at); BarGood(p, s, bars, i, out, ev)
  {
    SubmittedEnds(order, fill, t, bars[i].at);
  }

  lemma SubmitFresh(p: Plan, s1: State, bars: seq<Bar>, i: nat, order: PaperOrder)
    requires Ready(p, bars) && i < |bars| && NonNegative(s1) && MarkedBy(s1, bars[i]) && Fresh(bars, s1, i)
    requires p.strategy(bars[..i + 1]).Some? && order.symbol == bars[i].symbol
    requires order.key == DecisionOf(p, bars[i], p.strategy(bars[..i + 1]).value)
    requires Submit(p.config, s1, order, bars[i]).1.Executed?
    ensures var (t, r) := Submit(p.config, s1, order, bars[i]);
      MarkedBy(t, bars[i]) && Fresh(bars, t, i + 1) && TakeAccount(t).0 == t && FilledBy(p, t, bars, i, r.fill)
  {
    KeyIsFresh(bars, s1, i, order.key);
    SubmitGood(p.config, s1, order, bars[i]);
    var (t, r) := Submit(p.config, s1, order, bars[i]);
    FillAdded(bars, s1, t, i, r.fill);
  }

  lemma RaisedGood(p: Plan, s: State, bars: seq<Bar>, i: nat, order: PaperOrder)
    requires Ready(p, bars) && i < |bars|
    ensures BarGood(p, s, bars, i, None, Leading(order))
  {
  }

  lemma SubmittingFresh(p: Plan, s: State, bars: seq<Bar>, i: nat)
    requires Ready(p, bars) && i < |bars| && AccountOk(p.config, s) && Settled(s) && Fresh(bars, s, i)
    requires SubmitsAt(p, Mark(s, bars[i]), bars, i)
    ensures BarGood(p, s, bars, i, Process(p, s, bars, i).0, Process(p, s, bars, i).1)
  {
    var s1 := Mark(s, bars[i]);
    MarkKeeps(p.config, s, bars[i]);
    SubmittingBar(p, s, bars, i);
    var order := OrderAt(p, s1, bars, i);
    var (t, r) := Submit(p.config, s1, order, bars[i]);
    if r.Executed? {
      SubmitFresh(p, s1, bars, i, order);
      FillingGood(p, s, t, bars, i, order, r.fill);
    } else {
      RaisedGood(p, s, bars, i, order);
    }
  }

  lemma ProcessFresh(p: Plan, s: State, bars: seq<Bar>, i: nat)
    requires Ready(p, bars) && i < |bars| && AccountOk(p.config, s) && Settled(s) && Fresh(bars, s, i)
    ensures BarGood(p, s, bars, i, Process(p, s, bars, i).0, Process(p, s, bars, i).1)
  {
    if SubmitsAt(p, Mark(s, bars[i]), bars, i) {
      SubmittingFresh(p, s, bars, i);
    } else {
      QuietBarGood(p, s, bars, i);
      MarkKeeps(p.config, s, bars[i]);
      FreshLater(bars, s, Mark(s, bars[i]), i);
    }
  }

  lemma FreshLater(bars: seq<Bar>, s: State, t: State, i: nat)
    requires Fresh(bars, s, i) && t.fills == s.fills
    ensures Fresh(bars, t, i + 1)
  {
  }

  lemma SubmittingAgain(p: Plan, t: State, bars: seq<Bar>, i: nat, fill: PaperFill)
    requires Ready(p, bars) && i < |bars| && AccountOk(p.config, t) && Settled(t) && Mark(t, bars[i]) == t
    requires Opens(t) && FilledBy(p, t, bars, i, fill) && SubmitsAt(p, t, bars, i)
    ensures var (u, ev) := Process(p, t, bars, i);
      && u == Some(t) && Ends(ev, u, bars[i].at) && FillEvents(ev, bars[i].at) && HasFill(ev) && ev[3].fill == fill
  {
    SubmittingBar(p, t, bars, i);
    var order := OrderAt(p, t, bars, i);
    assert Submit(p.config, t, order, bars[i]) == (t, Executed(fill));
    SubmittedEnds(order, fill, t, bars[i].at);
  }

  /** Processing a bar again on the state that already contains its fill changes nothing. */
  lemma ProcessAgain(p: Plan, t: State, bars: seq<Bar>, i: nat, fill: PaperFill)
    requires Ready(p, bars) && i < |bars| && AccountOk(p.config, t) && MarkedBy(t, bars[i])
    requires Opens(t) && FilledBy(p, t, bars, i, fill)
    ensures Again(StepOf(p, bars), t, i, bars[i].at, fill)
  {
    RemarkIsIdle(t, bars[i]);
    if SubmitsAt(p, t, bars, i) {
      SubmittingAgain(p, t, bars, i, fill);
    } else {
      QuietAgain(p, t, bars, i);
    }
  }

  lemma QuietAgain(p: Plan, t: State, bars: seq<Bar>, i: nat)
    requires Ready(p, bars) && i < |bars| && AccountOk(p.config, t) && Settled(t) && Mark(t, bars[i]) == t
    requires Opens(t) && !SubmitsAt(p, t, bars, i)
    ensures var (u, ev) := Process(p, t, bars, i);
      u == Some(t) && Ends(ev, u, bars[i].at) && FillEvents(ev, bars[i].at) && !HasFill(ev)
  {
    QuietBarGood(p, t, bars, i);
  }

  // ---- The uninterrupted run ----

  ghost predicate GoodAt(p: Plan, bars: seq<Bar>, s: State, i: nat) {
    AccountOk(p.config, s) && Settled(s) && Fresh(bars, s, i)
  }

  lemma StepKeepsGood(p: Plan, bars: seq<Bar>, s: State, i: nat)
    requires Ready(p, bars) && i < |bars| && GoodAt(p, bars, s, i)
    ensures BarContract(StepOf(p, bars), s, i, bars[i])
    ensures var t := StepOf(p, bars)(s, i).0; t.Some? ==> GoodAt(p, bars, t.value, i + 1)
  {
    ProcessFresh(p, s, bars, i);
    ProcessKeepsAccount(p, s, bars, i);
    var (t, ev) := Process(p, s, bars, i);
    if t.Some? && HasFill(ev) { ProcessAgain(p, t.value, bars, i, ev[3].fill); }
  }

  lemma InitialIsGood(p: Plan, bars: seq<Bar>)
    requires Ready(p, bars)
    ensures GoodAt(p, bars, Initial(p.config), 0)
  {
    assert SumOf(map[], Worth(Initial(p.config))) == 0.0;
  }

  lemma NextIsGood(p: Plan, bars: seq<Bar>, i: nat, step: Step)
    requires Ready(p, bars) && i < |bars| && step == StepOf(p, bars)
    requires var s := StateBefore(step, Initial(p.config), i); s.Some? ==> GoodAt(p, bars, s.value, i)
    ensures var s := StateBefore(step, Initial(p.config), i + 1); s.Some? ==> GoodAt(p, bars, s.value, i + 1)
  {
    var before := StateBefore(step, Initial(p.config), i);
    if before.Some? { StepKeepsGood(p, bars, before.value, i); }
  }

  lemma {:induction false} RunIsGood(p: Plan, bars: seq<Bar>, i: nat)
    requires Ready(p, bars) && i <= |bars|
    ensures var s := StateBefore(StepOf(p, bars), Initial(p.config), i); s.Some? ==> GoodAt(p, bars, s.value, i)
  {
    if i == 0 {
      InitialIsGood(p, bars);
    } else {
      RunIsGood(p, bars, i - 1);
      NextIsGood(p, bars, i - 1, StepOf(p, bars));
    }
  }

  lemma FirstBarOpens(p: Plan, bars: seq<Bar>)
    requires Ready(p, bars) && 0 < |bars| && Process(p, Initial(p.config), bars, 0).0.Some?
    ensures Opens(Initial(p.config))
  {
    var s := Initial(p.config);
    RunIsGood(p, bars, 0);
    SettledAccountIsIdle(s);
    assert SumOf(s.positions, MarkedWorth(s)) == 0.0;
    assert SumOf(s.positions, MarkedWorth(Mark(s, bars[0]))) == 0.0;
    assert TakeAccount(Mark(s, bars[0])).1.Some?;
  }

  /** The engine's bars satisfy everything crash recovery relies on. */
  lemma EngineIsResumable(p: Plan, bars: seq<Bar>)
    requires Ready(p, bars)
    ensures Resumable(StepOf(p, bars), Initial(p.config), bars)
  {
    var step, start := StepOf(p, bars), Initial(p.config);
    forall i: nat ensures ContractAt(step, start, bars, i) {
      if i < |bars| && StateBefore(step, start, i).Some? {
        RunIsGood(p, bars, i);
        StepKeepsGood(p, bars, StateBefore(step, start, i).value, i);
      }
    }
    RunIsGood(p, bars, 0);
    SettledAccountIsIdle(start);
    if StateBefore(step, start, 1).Some? {
      assert StateBefore(step, start, 0) == Some(start);
      FirstBarOpens(p, bars);
    }
  }

  ghost predicate OneFillEach(ledger: seq<Event>) {
    forall j, k :: 0 <= j < |ledger| && 0 <= k < |ledger| && SameDecision(ledger[j], ledger[k]) ==> ledger[j] == ledger[k]
  }

  ghost predicate SameDecision(e: Event, f: Event) { e.FilledEvent? && f.FilledEvent? && e.fill.key == f.fill.key }

  /** A paper run that crashes between any two appends, any number of times, and is then left to finish
      ends in the cash, positions, fills, day start and high watermark of the run that never crashed,
      and never records two different fills for one decision. */
  lemma CrashResumeEqualsUninterrupted(p: Plan, bars: seq<Bar>, sessions: seq<Session>, m: nat)
    requires Ready(p, bars) && SessionsOk(bars, sessions) && MostBars(sessions) <= m <= |bars|
    ensures var step, start := StepOf(p, bars), Initial(p.config);
      var ledger := LedgerAfter(step, start, bars, sessions + [Session(m, None)]);
      var done := Reach(step, start, m);
      && Recover(start, bars, ledger) == (StateBefore(step, start, done).value, done)
      && OneFillEach(ledger)
  {
    var step, start := StepOf(p, bars), Initial(p.config);
    EngineIsResumable(p, bars);
    ResumeEqualsUninterrupted(step, start, bars, sessions, m);
    var all := sessions + [Session(m, None)];
    var ledger := LedgerAfter(step, start, bars, all);
    CrashesKeepLedger(step, start, bars, all);
    forall j, k | 0 <= j < |ledger| && 0 <= k < |ledger| && SameDecision(ledger[j], ledger[k])
      ensures ledger[j] == ledger[k]
    {
      OneFillPerDecision(step, start, bars, ledger, j, k);
    }
  }
}
