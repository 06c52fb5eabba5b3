/** The append-only ledger of a paper run, and restarting from its last checkpoint and progress marker,
    for any engine step that keeps the contract `BarContract`. */
module Recovery {
  import opened Orders
  import opened PaperBroker

  datatype Event =
    | IntentEvent(key: DecisionKey)
    | RiskEvent(approved: bool)
    | Submitted(order: PaperOrder)
    | FilledEvent(fill: PaperFill)
    | Checkpoint(state: State, at: int)
    | Progress(at: int)

  /** Processing one bar: the state after it, or None where the code raises, and what was appended. */
  type Step = (State, nat) -> (Option<State>, seq<Event>)

  ghost predicate Increasing(bars: seq<Bar>) { forall i, j :: 0 <= i < j < |bars| ==> bars[i].at < bars[j].at }

  // ---- What one bar appends ----

  ghost predicate Quiet(e: Event) { !e.Checkpoint? && !e.Progress? }

  /** Four records precede a fill's checkpoint: intent, risk, submission, fill. */
  ghost predicate HasFill(ev: seq<Event>) { |ev| >= 4 && ev[3].FilledEvent? }

  ghost predicate AllQuiet(ev: seq<Event>) { forall k :: 0 <= k < |ev| ==> Quiet(ev[k]) }

  /** Quiet events, then progress, with a checkpoint of the new state before it exactly when an order
      was filled. */
  ghost predicate Ends(ev: seq<Event>, t: Option<State>, at: int) {
    var n := |ev|;
    if t.None? then AllQuiet(ev)
    else if HasFill(ev) then
      n >= 6 && AllQuiet(ev[..n - 2]) && ev[n - 2] == Checkpoint(t.value, at) && ev[n - 1] == Progress(at)
    else n >= 1 && AllQuiet(ev[..n - 1]) && ev[n - 1] == Progress(at)
  }

  ghost predicate FillEvents(ev: seq<Event>, at: int) {
    forall k :: 0 <= k < |ev| && ev[k].FilledEvent? ==> k == 3 && ev[k].fill.key.generatedAt == at
  }

  /** Reading the account succeeds and leaves the broker as it is. */
  ghost predicate Opens(s: State) { TakeAccount(s).0 == s && TakeAccount(s).1.Some? }

  /** Processing the bar once more on the state that already holds its fill changes nothing. */
  ghost predicate Again(step: Step, t: State, i: nat, at: int, fill: PaperFill) {
    var (u, ev) := step(t, i);
    u == Some(t) && Ends(ev, u, at) && FillEvents(ev, at) && (HasFill(ev) ==> ev[3].fill == fill)
  }

  ghost predicate BarContract(step: Step, s: State, i: nat, bar: Bar) {
    var (t, ev) := step(s, i);
    && Ends(ev, t, bar.at) && FillEvents(ev, bar.at)
    && (t.Some? ==> Opens(t.value))
    && (t.Some? && !HasFill(ev) ==> t.value == Mark(s, bar))
    && (t.Some? && HasFill(ev) ==> Again(step, t.value, i, bar.at, ev[3].fill))
  }

  // ---- The uninterrupted run ----

  ghost function StateBefore(step: Step, start: State, i: nat): Option<State> {
    if i == 0 then Some(start)
    else
      var before := StateBefore(step, start, i - 1);
      if before.None? then None else step(before.value, i - 1).0
  }

  /** How many of the first m bars the uninterrupted run gets through. */
  ghost function Reach(step: Step, start: State, m: nat): (k: nat)
    ensures k <= m && StateBefore(step, start, k).Some?
    ensures k < m ==> StateBefore(step, start, k + 1).None?
  {
    if m == 0 then 0
    else
      var k := Reach(step, start, m - 1);
      if k == m - 1 && StateBefore(step, start, m).Some? then m else k
  }

  ghost function FillOfRun(step: Step, start: State, j: nat): Option<PaperFill> {
    var s := StateBefore(step, start, j);
    if s.None? then None
    else
      var ev := step(s.value, j).1;
      if HasFill(ev) then Some(ev[3].fill) else None
  }

  ghost predicate ContractAt(step: Step, start: State, bars: seq<Bar>, i: nat) {
    i < |bars| && StateBefore(step, start, i).Some? ==> BarContract(step, StateBefore(step, start, i).value, i, bars[i])
  }

  ghost predicate Resumable(step: Step, start: State, bars: seq<Bar>) {
    && Increasing(bars)
    && (forall i: nat :: ContractAt(step, start, bars, i))
    && TakeAccount(start).0 == start
    && (StateBefore(step, start, 1).Some? ==> Opens(start))
  }

  lemma {:induction false} FailureStays(step: Step, start: State, i: nat, j: nat)
    requires i <= j && StateBefore(step, start, j).Some?
    ensures StateBefore(step, start, i).Some?
    decreases j
  {
    if i < j { FailureStays(step, start, i, j - 1); }
  }

  // ---- Reading the ledger ----

  function LatestCheckpoint(ledger: seq<Event>): Option<(State, int)> {
    if ledger == [] then None
    else
      var e := ledger[|ledger| - 1];
      if e.Checkpoint? then Some((e.state, e.at)) else LatestCheckpoint(ledger[..|ledger| - 1])
  }

  function LatestProgress(ledger: seq<Event>): Option<int> {
    if ledger == [] then None
    else
      var e := ledger[|ledger| - 1];
      if e.Progress? then Some(e.at) else LatestProgress(ledger[..|ledger| - 1])
  }

  function CountUpTo(bars: seq<Bar>, at: int): (n: nat)
    ensures n <= |bars|
  {
    if bars == [] then 0
    else CountUpTo(bars[..|bars| - 1], at) + if bars[|bars| - 1].at <= at then 1 else 0
  }

  ghost function Replay(s: State, bars: seq<Bar>, n: nat, after: Option<int>): State
    requires n <= |bars|
  {
    if n == 0 then s
    else
      var before := Replay(s, bars, n - 1, after);
      if after.None? || bars[n - 1].at > after.value then Mark(before, bars[n - 1]) else before
  }

  /** What a restart rebuilds: the state to continue from and the index of the first bar to process. */
  ghost function Recover(start: State, bars: seq<Bar>, ledger: seq<Event>): (r: (State, nat))
    ensures r.1 <= |bars|
  {
    var checkpoint := LatestCheckpoint(ledger);
    var progress := LatestProgress(ledger);
    var n := if progress.Some? then CountUpTo(bars, progress.value) else 0;
    (Replay(if checkpoint.Some? then checkpoint.value.0 else start, bars, n,
            if checkpoint.Some? then Some(checkpoint.value.1) else None), n)
  }

  lemma {:induction false} CountIs(bars: seq<Bar>, at: int, n: nat)
    requires n <= |bars|
    requires forall j :: 0 <= j < |bars| ==> (bars[j].at <= at <==> j < n)
    ensures CountUpTo(bars, at) == n
    decreases |bars|
  {
    if bars != [] {
      var front := bars[..|bars| - 1];
      assert forall j :: 0 <= j < |front| ==> front[j] == bars[j];
      CountIs(front, at, if n == |bars| then n - 1 else n);
    }
  }

  lemma {:induction false} ReplaySkips(s: State, bars: seq<Bar>, k: nat, after: int)
    requires k <= |bars| && forall j :: 0 <= j < k ==> bars[j].at <= after
    ensures Replay(s, bars, k, Some(after)) == s
  {
    if k > 0 { ReplaySkips(s, bars, k - 1, after); }
  }

  lemma {:induction false} QuietAppend(ledger: seq<Event>, ev: seq<Event>)
    requires AllQuiet(ev)
    ensures LatestCheckpoint(ledger + ev) == LatestCheckpoint(ledger)
    ensures LatestProgress(ledger + ev) == LatestProgress(ledger)
    decreases |ev|
  {
    if ev == [] {
      assert ledger + ev == ledger;
    } else {
      var front := ev[..|ev| - 1];
      QuietAppend(ledger, front);
      assert (ledger + ev)[..|ledger + ev| - 1] == ledger + front;
    }
  }

  lemma AppendOne(ledger: seq<Event>, e: Event)
    ensures LatestCheckpoint(ledger + [e]) == if e.Checkpoint? then Some((e.state, e.at)) else LatestCheckpoint(ledger)
    ensures LatestProgress(ledger + [e]) == if e.Progress? then Some(e.at) else LatestProgress(ledger)
  {
    assert (ledger + [e])[..|ledger|] == ledger;
  }

  // ---- What every reachable ledger says ----

  ghost predicate QuietBar(step: Step, start: State, bars: seq<Bar>, j: nat) {
    && j < |bars| && StateBefore(step, start, j).Some?
    && StateBefore(step, start, j + 1) == Some(Mark(StateBefore(step, start, j).value, bars[j]))
  }

  /** The last checkpoint is the state before bar c, the last progress says n bars are done, and no
      order was filled between them; c is n + 1 while bar n has its checkpoint but no progress yet. */
  ghost predicate LedgerAt(step: Step, start: State, bars: seq<Bar>, ledger: seq<Event>, c: nat, n: nat) {
    && n <= |bars| && c <= |bars| && c <= n + 1
    && StateBefore(step, start, n).Some? && StateBefore(step, start, c).Some?
    && LatestProgress(ledger) == (if n == 0 then None else Some(bars[n - 1].at))
    && LatestCheckpoint(ledger) == (if c == 0 then None else Some((StateBefore(step, start, c).value, bars[c - 1].at)))
    && (forall j :: c <= j < n ==> QuietBar(step, start, bars, j))
    && (c == n + 1 ==> FillOfRun(step, start, n).Some?)
  }

  ghost predicate FilledInRun(step: Step, start: State, bars: seq<Bar>, fill: PaperFill) {
    exists j :: 0 <= j < |bars| && FillOfRun(step, start, j) == Some(fill)
  }

  ghost predicate FillsOfRun(step: Step, start: State, bars: seq<Bar>, ledger: seq<Event>) {
    forall k :: 0 <= k < |ledger| && ledger[k].FilledEvent? ==> FilledInRun(step, start, bars, ledger[k].fill)
  }

  ghost predicate Consistent(step: Step, start: State, bars: seq<Bar>, ledger: seq<Event>) {
    && (exists c, n :: LedgerAt(step, start, bars, ledger, c, n))
    && FillsOfRun(step, start, bars, ledger)
  }

  lemma {:induction false} ReplayMarks(step: Step, start: State, bars: seq<Bar>, c: nat, k: nat, after: Option<int>)
    requires Increasing(bars) && c <= k <= |bars| && StateBefore(step, start, c).Some?
    requires after == if c == 0 then None else Some(bars[c - 1].at)
    requires forall j :: c <= j < k ==> QuietBar(step, start, bars, j)
    ensures StateBefore(step, start, k) == Some(Replay(StateBefore(step, start, c).value, bars, k, after))
    decreases k
  {
    if k > c {
      ReplayMarks(step, start, bars, c, k - 1, after);
      assert QuietBar(step, start, bars, k - 1);
    } else if c > 0 {
      ReplaySkips(StateBefore(step, start, c).value, bars, k, bars[c - 1].at);
    }
  }

  /** A restart rebuilds a state of the uninterrupted run: the one before the first bar without
      progress, or the one after that bar when its checkpoint had been written. */
  lemma RecoverIs(step: Step, start: State, bars: seq<Bar>, ledger: seq<Event>, c: nat, n: nat)
    requires Increasing(bars) && LedgerAt(step, start, bars, ledger, c, n)
    ensures Recover(start, bars, ledger) == (StateBefore(step, start, if c <= n then n else n + 1).value, n)
  {
    if n > 0 { CountIs(bars, bars[n - 1].at, n); }
    if c <= n {
      ReplayMarks(step, start, bars, c, n, if c == 0 then None else Some(bars[c - 1].at));
    } else {
      ReplaySkips(StateBefore(step, start, c).value, bars, n, bars[c - 1].at);
    }
  }

  // ---- One bar of a session ----

  /** The state a session holds before bar i: the uninterrupted one, or already the next one. */
  ghost predicate Holding(step: Step, start: State, s: State, c: nat, i: nat) {
    && c <= i + 1 && StateBefore(step, start, i).Some?
    && StateBefore(step, start, if c <= i then i else i + 1) == Some(s)
    && (c == i + 1 ==> FillOfRun(step, start, i).Some?)
  }

  /** Whether the bar is new or already contained in the state, its outcome is the uninterrupted one. */
  lemma BarOutcome(step: Step, start: State, bars: seq<Bar>, s: State, c: nat, i: nat)
    requires Resumable(step, start, bars) && i < |bars| && Holding(step, start, s, c, i)
    ensures var (t, ev) := step(s, i);
      && t == StateBefore(step, start, i + 1)
      && Ends(ev, t, bars[i].at) && FillEvents(ev, bars[i].at)
      && (HasFill(ev) ==> FillOfRun(step, start, i) == Some(ev[3].fill))
      && (t.Some? && !HasFill(ev) && c <= i ==> QuietBar(step, start, bars, i))
  {
    var u := StateBefore(step, start, i).value;
    assert ContractAt(step, start, bars, i);
    if c == i + 1 { assert step(u, i).0 == Some(s); }
  }

  lemma FillsAppend(step: Step, start: State, bars: seq<Bar>, ledger: seq<Event>, ev: seq<Event>, i: nat, cut: nat)
    requires FillsOfRun(step, start, bars, ledger) && i < |bars| && cut <= |ev|
    requires FillEvents(ev, bars[i].at) && (HasFill(ev) ==> FillOfRun(step, start, i) == Some(ev[3].fill))
    ensures FillsOfRun(step, start, bars, ledger + ev[..cut])
  {
    var all := ledger + ev[..cut];
    forall k | 0 <= k < |all| && all[k].FilledEvent? ensures FilledInRun(step, start, bars, all[k].fill) {
      if k >= |ledger| { assert all[k] == ev[k - |ledger|]; }
    }
  }

  /** Quiet events leave the ledger where it was. */
  lemma LedgerQuiet(step: Step, start: State, bars: seq<Bar>, ledger: seq<Event>, c: nat, i: nat, ev: seq<Event>)
    requires LedgerAt(step, start, bars, ledger, c, i) && AllQuiet(ev)
    ensures LedgerAt(step, start, bars, ledger + ev, c, i)
  {
    QuietAppend(ledger, ev);
  }

  lemma LedgerCheckpoint(step: Step, start: State, bars: seq<Bar>, ledger: seq<Event>, c: nat, i: nat, t: State)
    requires LedgerAt(step, start, bars, ledger, c, i) && i < |bars|
    requires StateBefore(step, start, i + 1) == Some(t) && FillOfRun(step, start, i).Some?
    ensures LedgerAt(step, start, bars, ledger + [Checkpoint(t, bars[i].at)], i + 1, i)
  {
    AppendOne(ledger, Checkpoint(t, bars[i].at));
  }

  lemma LedgerProgress(step: Step, start: State, bars: seq<Bar>, ledger: seq<Event>, c: nat, i: nat)
    requires LedgerAt(step, start, bars, ledger, c, i) && i < |bars| && StateBefore(step, start, i + 1).Some?
    requires c <= i ==> QuietBar(step, start, bars, i)
    ensures LedgerAt(step, start, bars, ledger + [Progress(bars[i].at)], c, i + 1)
  {
    AppendOne(ledger, Progress(bars[i].at));
  }

  /** A filled bar: quiet events, the checkpoint, then progress. */
  lemma FilledBarKeepsLedger(step: Step, start: State, bars: seq<Bar>, ledger: seq<Event>, c: nat, i: nat,
                             t: State, quiet: seq<Event>)
    requires LedgerAt(step, start, bars, ledger, c, i) && i < |bars| && AllQuiet(quiet)
    requires StateBefore(step, start, i + 1) == Some(t) && FillOfRun(step, start, i).Some?
    ensures var led := ledger + quiet + [Checkpoint(t, bars[i].at)];
      LedgerAt(step, start, bars, led, i + 1, i) && LedgerAt(step, start, bars, led + [Progress(bars[i].at)], i + 1, i + 1)
  {
    LedgerQuiet(step, start, bars, ledger, c, i, quiet);
    LedgerCheckpoint(step, start, bars, ledger + quiet, c, i, t);
    LedgerProgress(step, start, bars, ledger + quiet + [Checkpoint(t, bars[i].at)], i + 1, i);
  }

  lemma PrefixQuiet(ev: seq<Event>, lead: nat, cut: nat)
    requires cut <= lead <= |ev| && AllQuiet(ev[..lead])
    ensures AllQuiet(ev[..cut])
  {
    forall k | 0 <= k < cut ensures Quiet(ev[k]) { assert ev[..lead][k] == ev[k]; }
  }

  function Lead(ev: seq<Event>, done: bool, filled: bool): int {
    if !done then |ev| else if filled then |ev| - 2 else |ev| - 1
  }

  /** Stopping anywhere before a bar's last event keeps its progress open. */
  lemma StoppedBarKeepsLedger(step: Step, start: State, bars: seq<Bar>, ledger: seq<Event>, c: nat, i: nat,
                              t: Option<State>, ev: seq<Event>, cut: nat) returns (d: nat)
    requires LedgerAt(step, start, bars, ledger, c, i) && i < |bars| && Ends(ev, t, bars[i].at)
    requires t == StateBefore(step, start, i + 1) && (HasFill(ev) ==> FillOfRun(step, start, i).Some?)
    requires cut <= |ev| && (t.Some? ==> cut < |ev|)
    ensures d <= c || d == i + 1
    ensures LedgerAt(step, start, bars, ledger + ev[..cut], d, i)
  {
    var lead := Lead(ev, t.Some?, HasFill(ev));
    if cut <= lead {
      if t.None? { assert ev[..lead] == ev; }
      PrefixQuiet(ev, lead, cut);
      LedgerQuiet(step, start, bars, ledger, c, i, ev[..cut]);
      d := c;
    } else {
      FilledBarKeepsLedger(step, start, bars, ledger, c, i, t.value, ev[..lead]);
      assert ledger + ev[..cut] == ledger + ev[..lead] + [ev[lead]];
      d := i + 1;
    }
  }

  /** Finishing a bar moves the ledger on by one. */
  lemma FinishedBarKeepsLedger(step: Step, start: State, bars: seq<Bar>, ledger: seq<Event>, c: nat, i: nat,
                               t: State, ev: seq<Event>) returns (d: nat)
    requires LedgerAt(step, start, bars, ledger, c, i) && i < |bars| && Ends(ev, Some(t), bars[i].at)
    requires StateBefore(step, start, i + 1) == Some(t) && (HasFill(ev) ==> FillOfRun(step, start, i).Some?)
    requires !HasFill(ev) && c <= i ==> QuietBar(step, start, bars, i)
    ensures d <= i + 1 && LedgerAt(step, start, bars, ledger + ev, d, i + 1)
  {
    var lead := Lead(ev, true, HasFill(ev));
    if HasFill(ev) {
      FilledBarKeepsLedger(step, start, bars, ledger, c, i, t, ev[..lead]);
      assert ledger + ev == ledger + ev[..lead] + [ev[lead]] + [ev[lead + 1]];
      d := i + 1;
    } else {
      LedgerQuiet(step, start, bars, ledger, c, i, ev[..lead]);
      LedgerProgress(step, start, bars, ledger + ev[..lead], c, i);
      assert ledger + ev == ledger + ev[..lead] + [ev[lead]];
      d := c;
    }
  }

  // ---- Sessions ----

  /** What an engine run over bars i .. m appends when nothing stops it: its bars, then a checkpoint. */
  ghost function RunEvents(step: Step, bars: seq<Bar>, s: State, i: nat, m: nat): seq<Event>
    requires i <= m <= |bars| && 0 < m
    decreases m - i
  {
    if i == m then
      var (closing, account) := TakeAccount(s);
      if account.None? then [] else [Checkpoint(closing, bars[m - 1].at)]
    else
      var (t, ev) := step(s, i);
      if t.None? then ev else ev + RunEvents(step, bars, t.value, i + 1, m)
  }

  /** One session is given the first m bars; a crash keeps only its first `cut` appended events. */
  datatype Session = Session(m: nat, cut: Option<nat>)

  function Cut<T>(ev: seq<T>, cut: Option<nat>): seq<T> {
    if cut.Some? && cut.value < |ev| then ev[..cut.value] else ev
  }

  ghost function Appended(step: Step, start: State, bars: seq<Bar>, ledger: seq<Event>, session: Session): seq<Event>
    requires session.m <= |bars|
  {
    var (s, i) := Recover(start, bars, ledger);
    if session.m <= i then []  // up to date
    else
      var (s1, account) := TakeAccount(s);
      if account.None? then [] else Cut(RunEvents(step, bars, s1, i, session.m), session.cut)
  }

  ghost predicate SessionsOk(bars: seq<Bar>, sessions: seq<Session>) {
    forall k :: 0 <= k < |sessions| ==> sessions[k].m <= |bars|
  }

  ghost function LedgerAfter(step: Step, start: State, bars: seq<Bar>, sessions: seq<Session>): seq<Event>
    requires SessionsOk(bars, sessions)
  {
    if sessions == [] then []
    else
      var before := LedgerAfter(step, start, bars, sessions[..|sessions| - 1]);
      before + Appended(step, start, bars, before, sessions[|sessions| - 1])
  }

  lemma ReachedOpens(step: Step, start: State, bars: seq<Bar>, i: nat)
    requires Resumable(step, start, bars) && i <= |bars| && StateBefore(step, start, i).Some?
    requires i == 0 ==> StateBefore(step, start, 1).Some?
    ensures Opens(StateBefore(step, start, i).value)
  {
    if i > 0 { assert ContractAt(step, start, bars, i - 1); }
  }

  /** The closing checkpoint repeats the state after the last bar. */
  lemma ClosingCheckpoint(step: Step, start: State, bars: seq<Bar>, ledger: seq<Event>, c: nat, m: nat, s: State)
    requires Resumable(step, start, bars) && 0 < m <= |bars| && LedgerAt(step, start, bars, ledger, c, m)
    requires StateBefore(step, start, m) == Some(s)
    ensures LedgerAt(step, start, bars, ledger + [Checkpoint(TakeAccount(s).0, bars[m - 1].at)], m, m)
  {
    ReachedOpens(step, start, bars, m);
    AppendOne(ledger, Checkpoint(s, bars[m - 1].at));
  }

  /** What a session has appended when it stops: the ledger stays consistent, and a session that is not
      stopped gets as far as the uninterrupted run. */
  ghost predicate Lands(step: Step, start: State, bars: seq<Bar>, ledger: seq<Event>, i: nat, m: nat, whole: bool,
                        d: nat, n: nat) {
    && i <= n <= m && d <= m && LedgerAt(step, start, bars, ledger, d, n) && FillsOfRun(step, start, bars, ledger)
    && (whole ==> d <= n && n == Reach(step, start, m))
  }

  lemma RunStopsInBar(step: Step, start: State, bars: seq<Bar>, ledger: seq<Event>, s: State,
                      c: nat, i: nat, m: nat, cut: nat) returns (d: nat)
    requires Resumable(step, start, bars) && i < m <= |bars| && LedgerAt(step, start, bars, ledger, c, i)
    requires Holding(step, start, s, c, i) && FillsOfRun(step, start, bars, ledger)
    requires var (t, ev) := step(s, i); cut <= |ev| && (t.Some? ==> cut < |ev|)
    ensures Lands(step, start, bars, ledger + step(s, i).1[..cut], i, m, step(s, i).0.None? && cut == |step(s, i).1|, d, i)
  {
    var (t, ev) := step(s, i);
    BarOutcome(step, start, bars, s, c, i);
    d := StoppedBarKeepsLedger(step, start, bars, ledger, c, i, t, ev, cut);
    FillsAppend(step, start, bars, ledger, ev, i, cut);
    if t.None? { ReachIs(step, start, m, i); }
  }

  lemma RunFinishesBar(step: Step, start: State, bars: seq<Bar>, ledger: seq<Event>, s: State, c: nat, i: nat)
    returns (d: nat)
    requires Resumable(step, start, bars) && i < |bars| && LedgerAt(step, start, bars, ledger, c, i)
    requires Holding(step, start, s, c, i) && FillsOfRun(step, start, bars, ledger) && step(s, i).0.Some?
    ensures var (t, ev) := step(s, i);
      && d <= i + 1 && LedgerAt(step, start, bars, ledger + ev, d, i + 1) && FillsOfRun(step, start, bars, ledger + ev)
      && Holding(step, start, t.value, d, i + 1)
  {
    var (t, ev) := step(s, i);
    BarOutcome(step, start, bars, s, c, i);
    d := FinishedBarKeepsLedger(step, start, bars, ledger, c, i, t.value, ev);
    FillsAppend(step, start, bars, ledger, ev, i, |ev|);
    assert ev[..|ev|] == ev;
  }

  lemma RunCloses(step: Step, start: State, bars: seq<Bar>, ledger: seq<Event>, s: State, c: nat, m: nat, cut: nat)
    returns (d: nat)
    requires Resumable(step, start, bars) && 0 < m <= |bars| && LedgerAt(step, start, bars, ledger, c, m) && c <= m
    requires Holding(step, start, s, c, m) && FillsOfRun(step, start, bars, ledger)
    requires cut <= |RunEvents(step, bars, s, m, m)|
    ensures var all := RunEvents(step, bars, s, m, m);
      Lands(step, start, bars, ledger + all[..cut], m, m, cut == |all|, d, m)
  {
    var all := RunEvents(step, bars, s, m, m);
    ReachedOpens(step, start, bars, m);
    ReachIs(step, start, m, m);
    if cut == 0 {
      assert ledger + all[..cut] == ledger;
      d := c;
    } else {
      ClosingCheckpoint(step, start, bars, ledger, c, m, s);
      assert all[..cut] == all;
      d := m;
    }
  }

  lemma {:induction false} RunKeepsLedger(step: Step, start: State, bars: seq<Bar>, ledger: seq<Event>, s: State,
                                          c: nat, i: nat, m: nat, cut: nat) returns (d: nat, n: nat)
    requires Resumable(step, start, bars) && i <= m <= |bars| && 0 < m
    requires LedgerAt(step, start, bars, ledger, c, i) && Holding(step, start, s, c, i) && (i == m ==> c <= m)
    requires FillsOfRun(step, start, bars, ledger) && cut <= |RunEvents(step, bars, s, i, m)|
    ensures var all := RunEvents(step, bars, s, i, m);
      Lands(step, start, bars, ledger + all[..cut], i, m, cut == |all|, d, n)
    decreases m - i
  {
    var all := RunEvents(step, bars, s, i, m);
    n := i;
    if i == m {
      d := RunCloses(step, start, bars, ledger, s, c, m, cut);
    } else {
      var (t, ev) := step(s, i);
      if t.None? {
        d := RunStopsInBar(step, start, bars, ledger, s, c, i, m, cut);
      } else if cut < |ev| {
        assert all[..cut] == ev[..cut];
        d := RunStopsInBar(step, start, bars, ledger, s, c, i, m, cut);
      } else {
        d := RunFinishesBar(step, start, bars, ledger, s, c, i);
        var rest := RunEvents(step, bars, t.value, i + 1, m);
        assert ledger + all[..cut] == ledger + ev + rest[..cut - |ev|];
        d, n := RunKeepsLedger(step, start, bars, ledger + ev, t.value, d, i + 1, m, cut - |ev|);
      }
    }
  }

  lemma {:induction false} ReachIs(step: Step, start: State, m: nat, k: nat)
    requires k <= m && StateBefore(step, start, k).Some? && (k < m ==> StateBefore(step, start, k + 1).None?)
    ensures Reach(step, start, m) == k
  {
    var r := Reach(step, start, m);
    if k < r {
      FailureStays(step, start, k + 1, r);
    } else if r < k {
      FailureStays(step, start, r + 1, k);
    }
  }

  /** The state a restart holds opens, unless the very first bar cannot be processed at all. */
  lemma HeldOpens(step: Step, start: State, bars: seq<Bar>, s: State, c: nat, i: nat, m: nat)
    requires Resumable(step, start, bars) && i < m <= |bars| && c <= |bars| && Holding(step, start, s, c, i)
    ensures TakeAccount(s).0 == s && (Opens(s) || (c <= i && Reach(step, start, m) == i))
  {
    var j := if c <= i then i else i + 1;
    if j > 0 {
      ReachedOpens(step, start, bars, j);
    } else if StateBefore(step, start, 1).None? {
      ReachIs(step, start, m, 0);
    }
  }

  ghost function CutAt(cut: Option<nat>, length: nat): (k: nat)
    ensures k <= length
  {
    if cut.Some? && cut.value < length then cut.value else length
  }

  /** One session keeps the ledger consistent; if it is not cut short, a restart after it finds
      every bar the uninterrupted run gets through, in the uninterrupted state. */
  lemma SessionKeepsLedger(step: Step, start: State, bars: seq<Bar>, ledger: seq<Event>, session: Session, c: nat, i: nat)
    returns (d: nat, n: nat)
    requires Resumable(step, start, bars) && session.m <= |bars|
    requires LedgerAt(step, start, bars, ledger, c, i) && FillsOfRun(step, start, bars, ledger)
    ensures var after := ledger + Appended(step, start, bars, ledger, session);
      if session.m <= i then after == ledger && d == c && n == i
      else Lands(step, start, bars, after, i, session.m, session.cut.None?, d, n)
  {
    RecoverIs(step, start, bars, ledger, c, i);
    var s := Recover(start, bars, ledger).0;
    d, n := c, i;
    if session.m > i { HeldOpens(step, start, bars, s, c, i, session.m); }
    if session.m <= i || TakeAccount(s).1.None? {
      assert ledger + Appended(step, start, bars, ledger, session) == ledger;
    } else {
      assert Opens(s);
      var all := RunEvents(step, bars, s, i, session.m);
      d, n := RunKeepsLedger(step, start, bars, ledger, s, c, i, session.m, CutAt(session.cut, |all|));
      assert all[..|all|] == all;
    }
  }

  // ---- Main results ----

  /** The most bars any session so far was given. */
  ghost function MostBars(sessions: seq<Session>): nat {
    if sessions == [] then 0
    else
      var before := MostBars(sessions[..|sessions| - 1]);
      var m := sessions[|sessions| - 1].m;
      if m < before then before else m
  }

  lemma {:induction false} SessionsKeepLedger(step: Step, start: State, bars: seq<Bar>, sessions: seq<Session>)
    returns (c: nat, n: nat)
    requires Resumable(step, start, bars) && SessionsOk(bars, sessions)
    ensures LedgerAt(step, start, bars, LedgerAfter(step, start, bars, sessions), c, n)
    ensures c <= MostBars(sessions) && n <= MostBars(sessions)
    ensures FillsOfRun(step, start, bars, LedgerAfter(step, start, bars, sessions))
  {
    if sessions == [] {
      c, n := 0, 0;
    } else {
      var front := sessions[..|sessions| - 1];
      c, n := SessionsKeepLedger(step, start, bars, front);
      c, n := SessionKeepsLedger(step, start, bars, LedgerAfter(step, start, bars, front), sessions[|sessions| - 1], c, n);
    }
  }

  /** However often and wherever sessions crash, the ledger stays consistent: a restart finds a state of
      the uninterrupted run, and every recorded fill is the uninterrupted run's fill for its decision. */
  lemma CrashesKeepLedger(step: Step, start: State, bars: seq<Bar>, sessions: seq<Session>)
    requires Resumable(step, start, bars) && SessionsOk(bars, sessions)
    ensures Consistent(step, start, bars, LedgerAfter(step, start, bars, sessions))
  {
    var c, n := SessionsKeepLedger(step, start, bars, sessions);
  }

  /** Two recorded fills of one decision are the same fill. */
  lemma OneFillPerDecision(step: Step, start: State, bars: seq<Bar>, ledger: seq<Event>, j: nat, k: nat)
    requires Resumable(step, start, bars) && Consistent(step, start, bars, ledger)
    requires j < |ledger| && k < |ledger| && ledger[j].FilledEvent? && ledger[k].FilledEvent?
    requires ledger[j].fill.key == ledger[k].fill.key
    ensures ledger[j].fill == ledger[k].fill
  {
    var a :| 0 <= a < |bars| && FillOfRun(step, start, a) == Some(ledger[j].fill);
    var b :| 0 <= b < |bars| && FillOfRun(step, start, b) == Some(ledger[k].fill);
    assert ContractAt(step, start, bars, a) && ContractAt(step, start, bars, b);
  }

  /** Whatever sessions ran and wherever each of them crashed, one session that is not stopped leaves a
      ledger from which a restart rebuilds the state of the run that never stopped, at the same bar. */
  lemma {:induction false} ResumeEqualsUninterrupted(step: Step, start: State, bars: seq<Bar>, sessions: seq<Session>, m: nat)
    requires Resumable(step, start, bars) && SessionsOk(bars, sessions) && MostBars(sessions) <= m <= |bars|
    ensures var done := Reach(step, start, m);
      Recover(start, bars, LedgerAfter(step, start, bars, sessions + [Session(m, None)]))
      == (StateBefore(step, start, done).value, done)
  {
    var all := sessions + [Session(m, None)];
    assert all[..|sessions|] == sessions;
    var c, n := SessionsKeepLedger(step, start, bars, sessions);
    var ledger := LedgerAfter(step, start, bars, sessions);
    var d, k := SessionKeepsLedger(step, start, bars, ledger, Session(m, None), c, n);
    if m <= n { ReachIs(step, start, m, n); }
    RecoverIs(step, start, bars, LedgerAfter(step, start, bars, all), d, k);
  }
}
