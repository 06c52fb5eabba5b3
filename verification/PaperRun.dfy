/** The engine object and the paper command: methods that perform what Engine and Recovery specify. */
module PaperRun {
  import opened Orders
  import opened PaperBroker
  import opened Recovery
  import opened Engine

  class TradingEngine {
    const plan: Plan
    const broker: Broker
    var events: seq<Event>

    constructor (plan: Plan, broker: Broker, events: seq<Event>)
      ensures this.plan == plan && this.broker == broker && this.events == events
    {
      this.plan, this.broker, this.events := plan, broker, events;
    }

    ghost predicate Valid(bars: seq<Bar>)
      reads broker
    {
      Ready(plan, bars) && broker.config == plan.config && AccountOk(plan.config, broker.View())
    }

    method Append(e: Event)
      modifies this
      ensures events == old(events) + [e]
    {
      events := events + [e];
    }

    method PlaceOrder(order: PaperOrder, bar: Bar) returns (ok: bool)
      requires broker.config == plan.config && NonNegative(broker.View())
      modifies this, broker
      ensures var (t, ev) := Place(plan.config, old(broker.View()), order, bar);
        events == old(events) + ev && ok == t.Some? && (ok ==> broker.View() == t.value)
    {
      var result := broker.SubmitOrder(order, bar);
      if result.Raised? { return false; }
      Append(FilledEvent(result.fill));
      var updated := broker.Account();
      if updated.None? { return false; }
      var state := broker.Export();
      Append(Checkpoint(state, bar.at));
      Append(Progress(bar.at));
      ok := true;
    }

    method DecideOrder(account: AccountView, bar: Bar, weight: real) returns (ok: bool)
      requires broker.config == plan.config && ConfigOk(plan.config) && BarOk(bar) && NonNegative(broker.View())
      modifies this, broker
      ensures var (t, ev) := Decide(plan, old(broker.View()), account, bar, weight);
        events == old(events) + ev && ok == t.Some? && (ok ==> broker.View() == t.value)
    {
      var again := broker.Account();
      if again.None? { return false; }
      var order := PlanOrder(plan, account.equity, again.value, bar, weight);
      if order.None? {
        Append(Progress(bar.at));
        return true;
      }
      var approved := plan.risk(order.value, bar, account);
      Append(RiskEvent(approved));
      if !approved {
        Append(Progress(bar.at));
        return true;
      }
      Append(Submitted(order.value));
      ok := PlaceOrder(order.value, bar);
    }

    method ActOn(account: AccountView, bar: Bar, weight: Option<real>) returns (ok: bool)
      requires broker.config == plan.config && ConfigOk(plan.config) && BarOk(bar) && NonNegative(broker.View())
      modifies this, broker
      ensures var (t, ev) := Act(plan, old(broker.View()), account, bar, weight);
        events == old(events) + ev && ok == t.Some? && (ok ==> broker.View() == t.value)
    {
      if weight.None? {
        Append(Progress(bar.at));
        return true;
      }
      Append(IntentEvent(DecisionOf(plan, bar, weight.value)));
      ok := DecideOrder(account, bar, weight.value);
    }

    method ProcessBar(bars: seq<Bar>, i: nat) returns (ok: bool)
      requires Valid(bars) && i < |bars|
      modifies this, broker
      ensures var (t, ev) := Process(plan, old(broker.View()), bars, i);
        events == old(events) + ev && ok == t.Some? && (ok ==> broker.View() == t.value)
    {
      MarkKeeps(plan.config, broker.View(), bars[i]);
      broker.MarkBar(bars[i]);
      var weight := plan.strategy(bars[..i + 1]);
      var account := broker.Account();
      if account.None? { return false; }
      ok := ActOn(account.value, bars[i], weight);
    }

    /** One bar of a run, whose remaining events it shortens by its own. */
    method RunBar(bars: seq<Bar>, k: nat, m: nat, ghost step: Step) returns (ok: bool)
      requires Valid(bars) && k < m <= |bars| && Performs(step, plan, bars)
      modifies this, broker
      ensures ok ==> Valid(bars)
      ensures old(events) + RunEvents(step, bars, old(broker.View()), k, m)
              == events + if ok then RunEvents(step, bars, broker.View(), k + 1, m) else []
    {
      ghost var before, led := broker.View(), events;
      assert StepAt(step, plan, bars, before, k);
      ProcessKeepsAccount(plan, before, bars, k);
      ok := ProcessBar(bars, k);
      ghost var (t, ev) := step(before, k);
      RunEventsNext(step, bars, before, k, m, led);
      assert led + ev + [] == led + ev;
    }

    /** Runs bars i .. m and appends what the specification of an unstopped session says. */
    method Run(bars: seq<Bar>, i: nat, m: nat, ghost step: Step) returns (ok: bool)
      requires Valid(bars) && i < m <= |bars| && Performs(step, plan, bars)
      modifies this, broker
      ensures var (s, account) := TakeAccount(old(broker.View()));
        events == old(events) + if account.None? then [] else RunEvents(step, bars, s, i, m)
    {
      var starting := broker.Account();
      if starting.None? { return false; }
      ghost var all := old(events) + RunEvents(step, bars, broker.View(), i, m);
      var k := i;
      while k < m
        invariant i <= k <= m && Valid(bars)
        invariant events + RunEvents(step, bars, broker.View(), k, m) == all
      {
        ok := RunBar(bars, k, m, step);
        if !ok {
          assert events + [] == events;
          return;
        }
        k := k + 1;
      }
      ok := Close(bars[m - 1].at);
    }

    method Close(at: int) returns (ok: bool)
      modifies this, broker
      ensures var (s, account) := TakeAccount(old(broker.View()));
        events == old(events) + if account.None? then [] else [Checkpoint(s, at)]
    {
      var final := broker.Account();
      if final.None? { return false; }
      var state := broker.Export();
      Append(Checkpoint(state, at));
      ok := true;
    }
  }

  ghost predicate StepAt(step: Step, p: Plan, bars: seq<Bar>, s: State, i: nat)
    requires Ready(p, bars)
  {
    i < |bars| && AccountOk(p.config, s) ==> step(s, i) == Process(p, s, bars, i)
  }

  /** The step is what the engine does to a bar. */
  ghost predicate Performs(step: Step, p: Plan, bars: seq<Bar>)
    requires Ready(p, bars)
  {
    forall s: State, i: nat :: StepAt(step, p, bars, s, i)
  }

  lemma RunEventsNext(step: Step, bars: seq<Bar>, s: State, k: nat, m: nat, led: seq<Event>)
    requires k < m <= |bars|
    ensures var (t, ev) := step(s, k);
      led + RunEvents(step, bars, s, k, m)
      == if t.None? then led + ev else led + ev + RunEvents(step, bars, t.value, k + 1, m)
  {
  }

  lemma GivenCount(bars: seq<Bar>, at: int, m: nat, n: nat)
    requires Increasing(bars) && m <= |bars| && 0 < n <= |bars| && at == bars[n - 1].at
    ensures CountUpTo(bars[..m], at) == if n <= m then n else m
    ensures CountUpTo(bars, at) == n
  {
    CountIs(bars[..m], at, if n <= m then n else m);
    CountIs(bars, at, n);
  }

  /** What a consistent ledger lets a restart rely on. */
  lemma Restarted(p: Plan, bars: seq<Bar>, ledger: seq<Event>) returns (c: nat, n: nat)
    requires Ready(p, bars) && Consistent(StepOf(p, bars), Initial(p.config), bars, ledger)
    ensures LedgerAt(StepOf(p, bars), Initial(p.config), bars, ledger, c, n)
    ensures Recover(Initial(p.config), bars, ledger).1 == n
    ensures AccountOk(p.config, Recover(Initial(p.config), bars, ledger).0)
  {
    var step, start := StepOf(p, bars), Initial(p.config);
    c, n :| LedgerAt(step, start, bars, ledger, c, n);
    RecoverIs(step, start, bars, ledger, c, n);
    RunIsGood(p, bars, if c <= n then n else n + 1);
  }

  /** The broker of the last checkpoint, or a new one, marked by the processed bars after it. */
  method Rebuild(plan: Plan, bars: seq<Bar>, processed: nat, checkpoint: Option<(State, int)>) returns (broker: Broker)
    requires processed <= |bars|
    ensures fresh(broker) && broker.config == plan.config
    ensures broker.View() == Replay(if checkpoint.Some? then checkpoint.value.0 else Initial(plan.config), bars, processed,
                                    if checkpoint.Some? then Some(checkpoint.value.1) else None)
  {
    broker := new Broker(plan.config);
    if checkpoint.Some? { broker := new Broker.Restore(plan.config, checkpoint.value.0); }
    ghost var from := broker.View();
    var at := if checkpoint.Some? then Some(checkpoint.value.1) else None;
    var j := 0;
    while j < processed
      invariant j <= processed && fresh(broker) && broker.config == plan.config
      invariant broker.View() == Replay(from, bars, j, at)
    {
      if at.None? || bars[j].at > at.value { broker.MarkBar(bars[j]); }
      j := j + 1;
    }
  }

  /** The paper command given the first m bars: rebuilds the broker from the ledger and runs the rest. */
  method Resume(plan: Plan, bars: seq<Bar>, m: nat, ledger: seq<Event>, ghost step: Step, ghost n: nat)
    returns (after: seq<Event>)
    requires Ready(plan, bars) && m <= |bars| && Performs(step, plan, bars)
    requires Recover(Initial(plan.config), bars, ledger).1 == n && (n > 0 ==> LatestProgress(ledger) == Some(bars[n - 1].at))
    requires n == 0 ==> LatestProgress(ledger).None?
    requires AccountOk(plan.config, Recover(Initial(plan.config), bars, ledger).0)
    ensures after == ledger + Appended(step, Initial(plan.config), bars, ledger, Session(m, None))
  {
    var progress, checkpoint := LatestProgress(ledger), LatestCheckpoint(ledger);
    var processed := 0;
    if progress.Some? {
      GivenCount(bars, progress.value, m, n);
      processed := CountUpTo(bars[..m], progress.value);
    }
    if processed == m {
      assert ledger + [] == ledger;
      return ledger;  // up to date
    }
    var broker := Rebuild(plan, bars, processed, checkpoint);
    var engine := new TradingEngine(plan, broker, ledger);
    var ok := engine.Run(bars, processed, m, step);
    after := engine.events;
  }

  /** Restarting on any ledger that crashes can leave behind appends exactly what the session model
      says and leaves such a ledger again. */
  method PaperCommand(plan: Plan, bars: seq<Bar>, m: nat, ledger: seq<Event>) returns (after: seq<Event>)
    requires Ready(plan, bars) && m <= |bars| && Consistent(StepOf(plan, bars), Initial(plan.config), bars, ledger)
    ensures after == ledger + Appended(StepOf(plan, bars), Initial(plan.config), bars, ledger, Session(m, None))
    ensures Consistent(StepOf(plan, bars), Initial(plan.config), bars, after)
  {
    ghost var c, n := Restarted(plan, bars, ledger);
    EngineIsResumable(plan, bars);
    ghost var d, k := SessionKeepsLedger(StepOf(plan, bars), Initial(plan.config), bars, ledger, Session(m, None), c, n);
    after := Resume(plan, bars, m, ledger, StepOf(plan, bars), n);
  }
}
