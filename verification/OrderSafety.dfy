/** What the order protocol guarantees in every reachable state, whatever crashed in between. */
module OrderSafety {
  import opened Orders
  import opened SessionStore
  import opened OrderProtocol
  import opened OrderLadder
  import opened OrderSync
  import opened OrderInvariant
  import opened OrderSteps

  /** How much a stored sell may still sell: its open remainder at the broker, or all of it while it
      has not reached the broker but still could. */
  ghost function MaySell(row: OrderRow, b: Broker): real {
    if row.side.Buy? then 0.0
    else if row.id in b.orders then
      if Open(b.orders[row.id]) then row.quantity - TrueFill(b, row.id) else 0.0
    else if row.id in b.wire || !Final(row.status) then row.quantity
    else 0.0
  }

  ghost function SellExposure(rows: seq<OrderRow>, b: Broker, symbol: Symbol): real {
    if rows == [] then 0.0
    else SellExposure(Front(rows), b, symbol) + if Last(rows).symbol == symbol then MaySell(Last(rows), b) else 0.0
  }

  ghost predicate EachSynced(rows: seq<OrderRow>, b: Broker) {
    forall i :: 0 <= i < |rows| ==> Synced(rows[i], b, None)
  }

  /** Once every row is final the store and the broker agree on every position. */
  lemma {:induction false} SettledRows(rows: seq<OrderRow>, b: Broker, symbol: Symbol)
    requires EachSynced(rows, b) && AllFinal(rows)
    ensures TrueNet(rows, b, symbol) == Inventory(rows, symbol)
    ensures SellExposure(rows, b, symbol) == 0.0
  {
    if rows != [] {
      SettledRows(Front(rows), b, symbol);
      assert rows[|rows| - 1] == Last(rows);
      FinalIsSettled(Last(rows), b, None);
    }
  }

  lemma InvSynced(s: System)
    requires Inv(s)
    ensures EachSynced(s.db.rows, s.broker)
  {
    forall i | 0 <= i < |s.db.rows| ensures Synced(s.db.rows[i], s.broker, None) {
      SyncedDrop(s.db.rows[i], s.broker, StageOf(s.worker, i));
    }
  }

  /** No oversell: the true position of a symbol is never negative and covers everything that may
      still be sold, through crashes, timeouts, partial fills and cancel races. */
  lemma NoOversell(s: System, symbol: Symbol)
    requires Reachable(s)
    ensures 0.0 <= SellExposure(s.db.rows, s.broker, symbol) <= Position(s.broker, symbol)
  {
    ReachableInv(s);
    InvSynced(s);
    var rows := s.db.rows;
    if rows != [] {
      var row := Last(rows);
      assert rows[|rows| - 1] == row;
      forall i | 0 <= i < |Front(rows)| ensures Synced(Front(rows)[i], s.broker, None) {
        assert Front(rows)[i] == rows[i];
      }
      SettledRows(Front(rows), s.broker, symbol);
      LadderInventory(Front(rows), symbol);
      FillIsBehind(row, s.broker, None);
    }
  }

  /** A client order id is posted at most once in any run, and an approved row has not been posted. */
  lemma AtMostOnePost(s: System, id: ClientId)
    requires Reachable(s)
    ensures s.broker.posts[id] <= 1
    ensures forall i :: 0 <= i < |s.db.rows| && s.db.rows[i].status == Approved ==> s.broker.posts[s.db.rows[i].id] == 0
  {
    ReachableInv(s);
    InvSynced(s);
    if Touched(s.broker, id) {
      var i :| 0 <= i < |s.db.rows| && s.db.rows[i].id == id;
      assert Synced(s.db.rows[i], s.broker, None);
    }
  }

  /** Any snapshot of any stored order can be delivered in any reachable state without an error, and
      it never lowers the recorded fill. */
  lemma ObservationNeverRaises(s: System, i: nat, k: nat)
    requires Reachable(s) && Snapshotted(s, i, k)
    ensures var row := s.db.rows[i];
      var outcome := Observe(row, s.broker.orders[row.id].history[k]);
      !outcome.Mismatch? && !outcome.Decreased?
      && (outcome.Applied? ==> row.filled <= outcome.row.filled)
      && (outcome.Applied? && Final(row.status) ==> outcome.row == row)
  {
    ReachableInv(s);
    assert Synced(s.db.rows[i], s.broker, StageOf(s.worker, i));
    ObserveSynced(s.db.rows[i], s.broker, StageOf(s.worker, i), k);
  }

  /** A status taken over from the broker means what the broker said. A row that is final is so because
      the broker's last word on the order is of that very kind, and its fill is the true one; only an
      order still working can carry a cancel mark of the manager's own. */
  lemma StoredStatusIsTrue(s: System, i: nat)
    requires Reachable(s) && i < |s.db.rows| && s.db.rows[i].broker.Some?
    ensures s.db.rows[i].id in s.broker.orders
    ensures TrueStatus(s.db.rows[i], s.broker.orders[s.db.rows[i].id])
  {
    ReachableInv(s);
    var row := s.db.rows[i];
    assert Synced(row, s.broker, StageOf(s.worker, i));
    var k :| Recorded(row, s.broker.orders[row.id], k);
    RecordedIsTrue(row, s.broker.orders[row.id], k);
  }

  /** With every row final, reconciliation cannot find a position mismatch. */
  lemma ReconcilesWhenFinal(s: System, symbol: Symbol)
    requires Reachable(s) && AllFinal(s.db.rows)
    ensures Position(s.broker, symbol) == Inventory(s.db.rows, symbol)
  {
    ReachableInv(s);
    InvSynced(s);
    SettledRows(s.db.rows, s.broker, symbol);
  }

  ghost predicate BrokerIdle(b: Broker) {
    && (forall symbol :: Position(b, symbol) == 0.0)
    && b.wire == {} && (forall id :: id in b.orders ==> !Open(b.orders[id]))
  }

  /** With every row final nothing can move at the broker; if nothing is held either, it is idle. */
  lemma FinalMeansQuiet(s: System)
    requires Reachable(s) && AllFinal(s.db.rows)
    ensures s.broker.wire == {} && forall id :: id in s.broker.orders ==> !Open(s.broker.orders[id])
    ensures Flat(s.db.rows) ==> BrokerIdle(s.broker)
  {
    ReachableInv(s);
    InvSynced(s);
    forall id | Touched(s.broker, id)
      ensures id !in s.broker.wire && (id in s.broker.orders ==> !Open(s.broker.orders[id]))
    {
      var i :| 0 <= i < |s.db.rows| && s.db.rows[i].id == id;
      FinalIsSettled(s.db.rows[i], s.broker, None);
    }
    if Flat(s.db.rows) {
      forall symbol ensures Position(s.broker, symbol) == 0.0 {
        ReconcilesWhenFinal(s, symbol);
        FlatEverywhere(s.db.rows, symbol);
      }
    }
  }

  // ---- Budget ----

  ghost function CountPosted(rows: seq<OrderRow>, b: Broker): nat {
    if rows == [] then 0
    else CountPosted(Front(rows), b) + if Last(rows).side.Buy? && b.posts[Last(rows).id] > 0 then 1 else 0
  }

  ghost function CountPostedNews(rows: seq<OrderRow>, b: Broker): nat {
    if rows == [] then 0
    else CountPostedNews(Front(rows), b)
         + if Last(rows).side.Buy? && b.posts[Last(rows).id] > 0 && Last(rows).tradeClass.NewsStrategy? then 1 else 0
  }

  lemma {:induction false} PostedAreCharged(rows: seq<OrderRow>, b: Broker)
    requires EachSynced(rows, b)
    ensures CountPosted(rows, b) <= CountCharged(rows)
    ensures CountPostedNews(rows, b) <= CountChargedNews(rows)
  {
    if rows != [] {
      assert rows[|rows| - 1] == Last(rows);
      PostedAreCharged(Front(rows), b);
    }
  }

  /** The session counters equal the buys whose reservation was never released, plus the scheduled
      entry still outstanding, plus the imported buys of the account that this store did not place; and
      the session itself never posts more than two entries or one news entry. */
  lemma BudgetConserved(s: System)
    requires Reachable(s)
    ensures s.db.budget.total
         == CountCharged(s.db.rows) + (if s.db.budget.scheduled then 1 else 0) + |s.db.budget.external|
    ensures s.db.budget.news == CountChargedNews(s.db.rows)
    ensures CountPosted(s.db.rows, s.broker) <= CountCharged(s.db.rows) <= 2 - if s.db.budget.scheduled then 1 else 0
    ensures CountPostedNews(s.db.rows, s.broker) <= s.db.budget.news <= 1
  {
    ReachableInv(s);
    InvSynced(s);
    PostedAreCharged(s.db.rows, s.broker);
  }

  ghost predicate Scheduled(s: System, a: Action) {
    a.ScheduleStep? && s.db.budget.scheduledRequest.None? && s.db.budget.equipment.None? && s.db.budget.total < 2
  }

  /** A scheduled session takes one entry out of the budget before any order exists; it can do so once in
      a run, before any equipment test, and what it took is held under its own request until an entry
      of that request is reserved. */
  lemma {:induction false} SchedulesOnce(steps: seq<Action>)
    requires After(steps).Some?
    ensures var b := After(steps).value.db.budget;
      if b.scheduledRequest.None? then !b.scheduled && forall n :: !ScheduledAt(steps, n)
      else exists n :: ScheduledAt(steps, n) && b.scheduledRequest == Some(steps[n].request)
                       && forall m :: ScheduledAt(steps, m) ==> m == n
    decreases |steps|
  {
    if steps != [] {
      var front, last := steps[..|steps| - 1], |steps| - 1;
      SchedulesOnce(front);
      var s, a := After(front).value, steps[last];
      ScheduleChanges(s, a);
      forall n ensures ScheduledAt(steps, n) <==> ScheduledAt(front, n) || (n == last && Scheduled(s, a)) { ScheduledFront(steps, n); }
      if s.db.budget.scheduledRequest.Some? {
        var n :| ScheduledAt(front, n) && s.db.budget.scheduledRequest == Some(front[n].request);
        assert ScheduledAt(steps, n);
      } else if Scheduled(s, a) {
        assert ScheduledAt(steps, last);
      }
    }
  }

  ghost predicate ScheduledAt(steps: seq<Action>, n: int) {
    0 <= n < |steps| && After(steps[..n]).Some? && Scheduled(After(steps[..n]).value, steps[n])
  }

  lemma ScheduledFront(steps: seq<Action>, n: int)
    requires steps != []
    ensures ScheduledAt(steps, n) <==> ScheduledAt(steps[..|steps| - 1], n) || (n == |steps| - 1 && ScheduledAt(steps, n))
  {
    if 0 <= n < |steps| - 1 { assert steps[..|steps| - 1][..n] == steps[..n]; }
  }

  lemma ScheduleChanges(s: System, a: Action)
    requires Enabled(s, a)
    ensures var b, c := s.db.budget, Next(s, a).db.budget;
      if Scheduled(s, a)
      then c == b.(total := b.total + 1, scheduled := true, scheduledRequest := Some(a.request))
      else c.scheduledRequest == b.scheduledRequest
           && (c.scheduled == b.scheduled
               || (b.scheduled && a.EnterStep? && a.intent.request == b.scheduledRequest
                   && |Next(s, a).db.rows| == |s.db.rows| + 1))
  {
  }

  /** The index of the last import that was accepted, or -1. */
  ghost function LastImport(steps: seq<Action>): int
    requires After(steps).Some?
    ensures -1 <= LastImport(steps) < |steps|
    decreases |steps|
  {
    if steps == [] then -1
    else
      var n := |steps| - 1;
      var a := steps[n];
      if a.ImportStep? && ImportHistory(After(steps[..n]).value.db, a.bought, a.brokerIds).Some? then n
      else LastImport(steps[..n])
  }

  lemma OnlyImportsCount(s: System, a: Action)
    requires Enabled(s, a)
    ensures Next(s, a).db.budget.external == s.db.budget.external
            || (a.ImportStep? && ImportHistory(s.db, a.bought, a.brokerIds).Some?)
  {
  }

  /** What the budget counts as bought outside is what the last accepted import reported as bought and
      the store had no row for: never a buy of its own. */
  lemma {:induction false} ExternalIsForeign(steps: seq<Action>, id: ClientId)
    requires After(steps).Some?
    ensures var n, external := LastImport(steps), After(steps).value.db.budget.external;
      if n < 0 then external == {}
      else
        && steps[n].ImportStep? && After(steps[..n]).Some?
        && (id in external <==> id in steps[n].bought && Absent(After(steps[..n]).value.db.rows, id))
    decreases |steps|
  {
    if steps != [] {
      var n := |steps| - 1;
      var s, a := After(steps[..n]).value, steps[n];
      ExternalIsForeign(steps[..n], id);
      OnlyImportsCount(s, a);
      if LastImport(steps) == n {
        ImportCounts(s.db, a.bought, a.brokerIds);
      } else {
        var m := LastImport(steps[..n]);
        if m >= 0 { assert steps[..n][..m] == steps[..m]; }
      }
    }
  }

  ghost predicate Kept(s: System, t: System, i: nat) {
    i < |s.db.rows| && i < |t.db.rows| && t.db.rows[i] == s.db.rows[i]
  }

  lemma ObservationKeepsFinal(s: System, a: Action, i: nat)
    requires Inv(s) && Enabled(s, a) && (a.ObserveStep? || a.Found? || a.Acknowledged?)
    requires i < |s.db.rows| && Final(s.db.rows[i].status)
    ensures Kept(s, Next(s, a), i)
  {
    var j := if a.ObserveStep? then a.i else s.worker.dispatch.value.row;
    assert Synced(s.db.rows[j], s.broker, StageOf(s.worker, j));
    ObserveSynced(s.db.rows[j], s.broker, StageOf(s.worker, j), a.k);
    RecordIsSet(s.db, j, s.broker.orders[s.db.rows[j].id].history[a.k]);
  }

  lemma DispatchKeepsFinal(s: System, a: Action, i: nat)
    requires Enabled(s, a) && (a.RevalidationFailed? || a.RecordAttempt? || a.RejectedByBroker?)
    requires !Final(Current(s).status)
    requires i < |s.db.rows| && Final(s.db.rows[i].status)
    ensures Kept(s, Next(s, a), i)
  {
  }

  lemma SupervisionKeepsFinal(s: System, a: Action, i: nat)
    requires Enabled(s, a) && (a.EnterStep? || a.ExpireStep? || a.CancelStep? || a.ExitStep? || a.ClaimStep?)
    requires i < |s.db.rows| && Final(s.db.rows[i].status)
    ensures Kept(s, Next(s, a), i)
  {
  }

  lemma OthersKeepRows(s: System, a: Action, i: nat)
    requires Enabled(s, a) && i < |s.db.rows|
    requires !a.ObserveStep? && !a.Found? && !a.Acknowledged? && !a.RevalidationFailed? && !a.RecordAttempt?
    requires !a.RejectedByBroker? && !a.EnterStep? && !a.ExpireStep? && !a.CancelStep? && !a.ExitStep? && !a.ClaimStep?
    ensures Kept(s, Next(s, a), i)
  {
  }

  /** No step changes a final row. */
  lemma FinalRowsStay(s: System, a: Action, i: nat)
    requires Inv(s) && Enabled(s, a) && i < |s.db.rows| && Final(s.db.rows[i].status)
    ensures Kept(s, Next(s, a), i)
  {
    match a
    case ObserveStep(_, _) => ObservationKeepsFinal(s, a, i);
    case Found(_) => ObservationKeepsFinal(s, a, i);
    case Acknowledged(_) => ObservationKeepsFinal(s, a, i);
    case RevalidationFailed => ClaimedIsActive(s); DispatchKeepsFinal(s, a, i);
    case RecordAttempt => ClaimedIsActive(s); DispatchKeepsFinal(s, a, i);
    case RejectedByBroker => ClaimedIsActive(s); DispatchKeepsFinal(s, a, i);
    case EnterStep(_) => SupervisionKeepsFinal(s, a, i);
    case ExpireStep(_) => SupervisionKeepsFinal(s, a, i);
    case CancelStep(_) => SupervisionKeepsFinal(s, a, i);
    case ExitStep(_, _) => SupervisionKeepsFinal(s, a, i);
    case ClaimStep => SupervisionKeepsFinal(s, a, i);
    case _ => OthersKeepRows(s, a, i);
  }

  /** However a run goes on, a row that was once final stays as it is. */
  lemma {:induction false} FinalRowsAreForever(steps: seq<Action>, more: seq<Action>, i: nat)
    requires After(steps).Some? && i < |After(steps).value.db.rows| && Final(After(steps).value.db.rows[i].status)
    ensures After(steps + more).Some? ==> Kept(After(steps).value, After(steps + more).value, i)
    decreases |more|
  {
    if more == [] {
      assert steps + more == steps;
    } else {
      var front := more[..|more| - 1];
      FinalRowsAreForever(steps, front, i);
      assert (steps + more)[..|steps + more| - 1] == steps + front;
      if After(steps + more).Some? {
        RunKeeps(steps + front);
        FinalRowsStay(After(steps + front).value, more[|more| - 1], i);
      }
    }
  }

  /** A released reservation was never posted, never will be however the run goes on, and is never
      released again. */
  lemma ReleasedIsNeverPosted(steps: seq<Action>, more: seq<Action>, i: nat)
    requires After(steps).Some? && i < |After(steps).value.db.rows| && After(steps).value.db.rows[i].released
    ensures After(steps + more).Some? ==>
      var s, t := After(steps).value, After(steps + more).value;
      && Kept(s, t, i) && t.broker.posts[t.db.rows[i].id] == 0
      && forall claimed :: ExpireUnsent(t.db, i, claimed) == Untouched
  {
    RunKeeps(steps);
    RunKeeps(steps + more);
    var s := After(steps).value;
    assert Synced(s.db.rows[i], s.broker, StageOf(s.worker, i));
    FinalRowsAreForever(steps, more, i);
    if After(steps + more).Some? {
      var t := After(steps + more).value;
      assert Synced(t.db.rows[i], t.broker, StageOf(t.worker, i));
    }
  }

  /** The row a dispatch has claimed is still waiting for its outcome. */
  lemma ClaimedIsActive(s: System)
    requires Inv(s) && (At(s, Prepared) || At(s, Posted) || At(s, Attempted))
    ensures Current(s).status == ReconciliationRequired
  {
    var j := s.worker.dispatch.value.row;
    assert Synced(s.db.rows[j], s.broker, StageOf(s.worker, j));
  }

  /** The counter-mismatch error of the release transaction cannot be raised. */
  lemma CounterMismatchUnreachable(s: System, i: nat, claimed: bool)
    requires Reachable(s) && i < |s.db.rows| && s.db.rows[i].side.Buy?
    ensures !ExpireUnsent(s.db, i, claimed).CounterMismatch?
  {
    ReachableInv(s);
    if Releasable(s.db.rows[i], claimed) {
      ActiveIsLast(s, i);
      ReleaseConserves(s.db, i, claimed);
    }
  }

  ghost predicate GivenBack(before: Db, after: Db, i: nat) {
    && i < |before.rows| && after.claims == before.claims
    && after.rows == before.rows[i := before.rows[i].(status := OrderStatus.Expired, released := true)]
    && after.budget == before.budget.(total := before.budget.total - 1,
                                      news := before.budget.news - if before.rows[i].tradeClass.NewsStrategy? then 1 else 0)
  }

  /** A buy that was never sent gives its reservation back: while it is approved by expiry, and after its
      claim by the dispatch that holds it, but by no one else. */
  lemma UnsentIsReleased(s: System, i: nat)
    requires Reachable(s) && i < |s.db.rows| && s.db.rows[i].side.Buy?
    ensures var row := s.db.rows[i];
      && (row.status.Approved? ==>
            ExpireUnsent(s.db, i, false).Released? && GivenBack(s.db, ExpireUnsent(s.db, i, false).db, i))
      && (!row.status.Approved? ==> ExpireUnsent(s.db, i, false) == Untouched)
      && (At(s, Prepared) && s.worker.dispatch.value.row == i ==>
            ExpireUnsent(s.db, i, true).Released? && GivenBack(s.db, ExpireUnsent(s.db, i, true).db, i))
  {
    ReachableInv(s);
    assert Synced(s.db.rows[i], s.broker, StageOf(s.worker, i));
    CounterMismatchUnreachable(s, i, false);
    CounterMismatchUnreachable(s, i, true);
  }

  /** An exit that its dispatch claimed but did not send expires, and costs the budget nothing. */
  lemma UnsentExitExpires(s: System, i: nat)
    requires Reachable(s) && At(s, Prepared) && s.worker.dispatch.value.row == i && s.db.rows[i].side.Sell?
    ensures ExpireExit(s.db, i) == s.db.(rows := s.db.rows[i := s.db.rows[i].(status := OrderStatus.Expired)])
  {
    ReachableInv(s);
    ClaimedIsActive(s);
  }

  // ---- Fresh identities ----

  /** An order as it is reserved: nothing of it has been sent, filled or released. */
  ghost predicate Ordered(row: OrderRow, cohort: Cohort, symbol: Symbol, side: Side, quantity: real, at: int, exitAt: int) {
    && row.cohort == cohort && row.symbol == symbol && row.side == side && row.quantity == quantity
    && row.createdAt == at && row.exitAt == exitAt
    && row.status.Approved? && row.filled == 0.0 && row.broker.None? && row.brokerId.None? && !row.attempted && !row.released
  }

  /** A reserved entry has a fresh id and keeps the counter, imported buys included, within the limit;
      and whatever an earlier read of the broker said, the broker is idle when the entry commits. */
  lemma EntryReservesFresh(s: System, e: Intent)
    requires Reachable(s)
    ensures var (db, result) := ReserveEntry(s.db, e);
      result.Reserved? ==>
        && AllFinal(s.db.rows) && Absent(s.db.rows, result.row.id) && db.rows == s.db.rows + [result.row]
        && db.budget.total <= e.limit && e.brokerIdle && BrokerIdle(s.broker)
        && Ordered(result.row, e.cohort, e.symbol, Buy, e.quantity, e.now, e.exitAt)
        && result.row.id == EntryId(ClaimOf(e)) && ClaimOf(e) !in s.db.claims
        && result.row.tradeClass == (if e.kind.Strategy? then NewsStrategy else EquipmentTest)
  {
    ReachableInv(s);
    if ReserveEntry(s.db, e).1.Reserved? {
      EntryIdFresh(s.db.rows, s.db.claims, ClaimOf(e));
      FinalMeansQuiet(s);
    }
  }

  /** A reserved exit has a fresh id and sells exactly what is owned and held; and although the broker's
      positions and orders were read earlier, nothing is open there when the exit commits. */
  lemma ExitReservesFresh(s: System, symbol: Symbol, now: int)
    requires Reachable(s) && ExitReady(s, symbol)
    ensures var p := s.worker.pass.value;
      var row := ExitRow(p.own, p.cohort, symbol, now);
      AllFinal(OwnRows(s.db.rows, p.cohort)) ==>
        && AllFinal(s.db.rows) && Absent(s.db.rows, row.id)
        && row.quantity == Position(s.broker, symbol) == Inventory(s.db.rows, symbol)
        && s.broker.wire == {} && forall id :: id in s.broker.orders ==> !Open(s.broker.orders[id])
  {
    ReachableInv(s);
    var p := s.worker.pass.value;
    if AllFinal(OwnRows(s.db.rows, p.cohort)) {
      ExitFits(s.db, p, symbol, now);
      ReconcilesWhenFinal(s, symbol);
      LadderInventory(s.db.rows, symbol);
      FinalMeansQuiet(s);
    }
  }

  /** An entry is reserved exactly when its claim was never spent, everything local is final and closed, the
      broker looked idle, no other scheduled session holds the entry, the session's counters leave room,
      and it is not a second equipment test or news entry of the session. */
  lemma EntryReservedWhen(s: System, e: Intent)
    requires Reachable(s)
    ensures var b := s.db.budget;
      var mine := b.scheduled && e.request.Some? && e.request == b.scheduledRequest;
      ReserveEntry(s.db, e).1.Reserved? <==>
        && (b.scheduled ==> mine)
        && ClaimOf(e) !in s.db.claims && AllFinal(s.db.rows) && (forall symbol :: Unheld(s.db.rows, symbol))
        && e.brokerIdle
        && (e.kind.Strategy? ==> CountChargedNews(s.db.rows) == 0) && (e.kind.Calibration? ==> b.equipment.None?)
        && CountCharged(s.db.rows) + |b.external| < e.limit
  {
    BudgetConserved(s);
    FlatIsZero(s.db.rows);
  }

  ghost predicate Unheld(rows: seq<OrderRow>, symbol: Symbol) { Inventory(rows, symbol) == 0.0 }

  lemma FlatIsZero(rows: seq<OrderRow>)
    ensures Flat(rows) <==> forall symbol :: Unheld(rows, symbol)
  {
    if Flat(rows) {
      forall symbol ensures Unheld(rows, symbol) { FlatEverywhere(rows, symbol); }
    } else {
      var i :| 0 <= i < |rows| && Inventory(rows, rows[i].symbol) != 0.0;
      assert !Unheld(rows, rows[i].symbol);
    }
  }

  /** The row an exit order closes: its own cohort's filled buy of the symbol. */
  ghost predicate Closes(row: OrderRow, entry: OrderRow) {
    && entry.side.Buy? && entry.cohort == row.cohort && entry.symbol == row.symbol
    && row.id.ExitId? && row.id.cohort == row.cohort && row.id.entry == entry.id
    && row.tradeClass == entry.tradeClass
  }

  lemma ExitRowCloses(rows: seq<OrderRow>, own: seq<OrderRow>, cohort: Cohort, symbol: Symbol, now: int)
    requires Ladder(rows) && Lane(own, symbol) == Lane(OwnRows(rows, cohort), symbol) && OpenBuys(own, symbol) != []
    ensures exists j :: 0 <= j < |rows| && Closes(ExitRow(own, cohort, symbol, now), rows[j])
                        && ExitRow(own, cohort, symbol, now).exitAt == rows[j].exitAt
  {
    LaneDetermines(own, symbol);
    LaneDetermines(OwnRows(rows, cohort), symbol);
    OpenBuyIsEntry(rows, cohort, symbol);
    var j :| IsEntry(rows, j, Holds(rows)) && OpenBuys(OwnRows(rows, cohort), symbol) == [rows[j]];
    assert Closes(ExitRow(own, cohort, symbol, now), rows[j]);
  }

  lemma ExitAddsRow(s: System, symbol: Symbol, now: int)
    requires ExitReady(s, symbol) && AllFinal(OwnRows(s.db.rows, s.worker.pass.value.cohort))
    ensures var p := s.worker.pass.value;
      Next(s, ExitStep(symbol, now)).db.rows == s.db.rows + [ExitRow(p.own, p.cohort, symbol, now)]
  {
  }

  lemma ExitRowOrdered(own: seq<OrderRow>, cohort: Cohort, symbol: Symbol, now: int)
    requires OpenBuys(own, symbol) != []
    ensures var row := ExitRow(own, cohort, symbol, now);
      Ordered(row, cohort, symbol, Sell, Inventory(own, symbol), now, row.exitAt)
  {
  }

  /** An exit is stored with the deadline and the class of the entry it closes. */
  lemma ExitKeepsDeadline(s: System, symbol: Symbol, now: int, row: OrderRow)
    requires Reachable(s) && ExitReady(s, symbol) && AllFinal(OwnRows(s.db.rows, s.worker.pass.value.cohort))
    requires row == ExitRow(s.worker.pass.value.own, s.worker.pass.value.cohort, symbol, now)
    ensures Next(s, ExitStep(symbol, now)).db.rows == s.db.rows + [row]
    ensures exists j :: 0 <= j < |s.db.rows| && Closes(row, s.db.rows[j])
              && Ordered(row, s.worker.pass.value.cohort, symbol, Sell, Inventory(s.db.rows, symbol), now, s.db.rows[j].exitAt)
  {
    ReachableInv(s);
    ExitReservesFresh(s, symbol, now);
    var p := s.worker.pass.value;
    ExitAddsRow(s, symbol, now);
    ExitRowOrdered(p.own, p.cohort, symbol, now);
    ExitRowCloses(s.db.rows, p.own, p.cohort, symbol, now);
  }

  /** No other step adds a row, so every reserved id is fresh: the primary key never rejects it. */
  lemma ReservedIdsAreFresh(s: System, a: Action)
    requires Reachable(s) && Enabled(s, a)
    ensures var t := Next(s, a);
      |t.db.rows| == |s.db.rows|
      || (|t.db.rows| == |s.db.rows| + 1 && AllFinal(s.db.rows) && Absent(s.db.rows, t.db.rows[|s.db.rows|].id))
  {
    if a.EnterStep? { EntryReservesFresh(s, a.intent); }
    else if a.ExitStep? { ExitReservesFresh(s, a.symbol, a.now); }
  }
}
