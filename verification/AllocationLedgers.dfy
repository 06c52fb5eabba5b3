/** The published report: one aggregate ledger, one ledger per class, and their rounds. */
module AllocationLedgers {
  import opened Orders
  import opened Ledger
  import opened LedgerRounds

  // ---- Confirmed rows ----

  function Find(rows: seq<OrderRow>, id: ClientId): (j: int)
    ensures -1 <= j < |rows|
    ensures j >= 0 ==> rows[j].id == id
    ensures j < 0 ==> forall k :: 0 <= k < |rows| ==> rows[k].id != id
  {
    if rows == [] then -1 else if Last(rows).id == id then |rows| - 1 else Find(Front(rows), id)
  }

  function Confirm(unique: seq<OrderRow>, row: OrderRow): seq<OrderRow> {
    var j := Find(unique, row.id);
    if j < 0 then unique + [row] else if Fill(row) >= Fill(unique[j]) then unique[j := row] else unique
  }

  function ConfirmedRows(rows: seq<OrderRow>): seq<OrderRow> {
    if rows == [] then [] else Confirm(ConfirmedRows(Front(rows)), Last(rows))
  }

  ghost predicate IdsUnique(rows: seq<OrderRow>) {
    forall i, j :: 0 <= i < j < |rows| ==> rows[i].id != rows[j].id
  }

  ghost predicate Covered(unique: seq<OrderRow>, row: OrderRow) {
    exists i :: 0 <= i < |unique| && unique[i].id == row.id && Fill(unique[i]) >= Fill(row)
  }

  ghost predicate Within(unique: seq<OrderRow>, rows: seq<OrderRow>) {
    forall i :: 0 <= i < |unique| ==> unique[i] in rows
  }

  ghost predicate Represents(unique: seq<OrderRow>, rows: seq<OrderRow>) {
    IdsUnique(unique) && Within(unique, rows) && forall i :: 0 <= i < |rows| ==> Covered(unique, rows[i])
  }

  /** One row per client order id: one of its rows with the largest confirmed fill. */
  lemma {:induction false} ConfirmedRowsRepresent(rows: seq<OrderRow>)
    ensures Represents(ConfirmedRows(rows), rows)
  {
    if rows != [] {
      var front, last := Front(rows), Last(rows);
      ConfirmedRowsRepresent(front);
      var unique := ConfirmedRows(front);
      ConfirmWithin(unique, front, last);
      assert rows == front + [last];
      forall i | 0 <= i < |rows| ensures Covered(Confirm(unique, last), rows[i]) {
        if i < |front| { assert Covered(unique, front[i]); }
        ConfirmCovers(unique, last, rows[i]);
      }
    }
  }

  /** The row stands in the list, and every later one of its id has a smaller fill. */
  ghost predicate IsLatest(rows: seq<OrderRow>, k: int, row: OrderRow) {
    0 <= k < |rows| && rows[k] == row && forall m :: k < m < |rows| && rows[m].id == row.id ==> Fill(rows[m]) < Fill(row)
  }

  /** Among the rows of one id with the largest fill it is the last that survives. */
  lemma {:induction false} ConfirmedIsLatest(rows: seq<OrderRow>, i: nat)
    requires i < |ConfirmedRows(rows)|
    ensures exists k :: IsLatest(rows, k, ConfirmedRows(rows)[i])
  {
    var front, last := Front(rows), Last(rows);
    var unique, row := ConfirmedRows(front), ConfirmedRows(rows)[i];
    ConfirmedRowsRepresent(front);
    ConfirmChooses(unique, last, i);
    if row == last {
      assert IsLatest(rows, |rows| - 1, row);
    } else {
      ConfirmedIsLatest(front, i);
      var k :| IsLatest(front, k, row);
      LatestStays(front, last, k, row);
      assert front + [last] == rows;
    }
  }

  lemma ConfirmChooses(unique: seq<OrderRow>, last: OrderRow, i: nat)
    requires IdsUnique(unique) && i < |Confirm(unique, last)|
    ensures var row := Confirm(unique, last)[i];
      row == last || (i < |unique| && row == unique[i] && (last.id == row.id ==> Fill(last) < Fill(row)))
  {
    var j := Find(unique, last.id);
    assert j >= 0 ==> unique[j].id == last.id;
  }

  lemma LatestStays(front: seq<OrderRow>, last: OrderRow, k: int, row: OrderRow)
    requires IsLatest(front, k, row) && (last.id == row.id ==> Fill(last) < Fill(row))
    ensures IsLatest(front + [last], k, row)
  {
    var rows := front + [last];
    forall m | k < m < |rows| && rows[m].id == row.id ensures Fill(rows[m]) < Fill(row) {
      if m < |front| { assert front[m] == rows[m]; }
    }
  }

  lemma ConfirmWithin(unique: seq<OrderRow>, rows: seq<OrderRow>, row: OrderRow)
    requires IdsUnique(unique) && Within(unique, rows)
    ensures IdsUnique(Confirm(unique, row)) && Within(Confirm(unique, row), rows + [row])
  {
    var after := Confirm(unique, row);
    forall i | 0 <= i < |after| ensures after[i] in rows + [row] {
      assert after[i] == row || after[i] == unique[i];
    }
  }

  lemma ConfirmCovers(unique: seq<OrderRow>, row: OrderRow, other: OrderRow)
    requires IdsUnique(unique) && (other == row || Covered(unique, other))
    ensures Covered(Confirm(unique, row), other)
  {
    var after := Confirm(unique, row);
    var j := Find(unique, row.id);
    if other == row {
      var i := if j < 0 then |unique| else j;
      assert after[i].id == other.id && Fill(after[i]) >= Fill(other);
    } else {
      var i :| 0 <= i < |unique| && unique[i].id == other.id && Fill(unique[i]) >= Fill(other);
      assert after[i].id == other.id && Fill(after[i]) >= Fill(other);
    }
  }

  /** Rows read by primary key are already confirmed rows. */
  lemma {:induction false} DistinctRowsAreConfirmed(rows: seq<OrderRow>)
    requires IdsUnique(rows)
    ensures ConfirmedRows(rows) == rows
  {
    if rows != [] {
      var front, last := Front(rows), Last(rows);
      forall i, j | 0 <= i < j < |front| ensures front[i].id != front[j].id { assert rows[i].id != rows[j].id; }
      DistinctRowsAreConfirmed(front);
      NewRowIsAppended(front, last);
      assert rows == front + [last];
    }
  }

  lemma NewRowIsAppended(front: seq<OrderRow>, last: OrderRow)
    requires IdsUnique(front + [last])
    ensures Confirm(front, last) == front + [last]
  {
    var all := front + [last];
    forall j | 0 <= j < |front| ensures front[j].id != last.id { assert all[j].id != all[|front|].id; }
  }

  // ---- P&L as one sum over rows ----

  ghost function PnlOf(marks: Marks): OrderRow -> real {
    row => Cash(row) + SignedFill(row) * MarkOf(marks, row.symbol)
  }

  ghost function NetPnlOf(marks: Marks): OrderRow -> real {
    row => Cash(row) + SignedFill(row) * MarkOf(marks, row.symbol) - Fee(row) - Residual(row)
  }

  lemma {:induction false} PnlIsTotal(rows: seq<OrderRow>, marks: Marks)
    ensures BrokerPnl(rows, marks) == Total(rows, PnlOf(marks))
    ensures EconomicPnl(rows, marks) == Total(rows, NetPnlOf(marks))
  {
    if rows != [] { PnlIsTotal(Front(rows), marks); }
  }

  lemma PnlIsFillOnly(marks: Marks)
    ensures FillOnly(PnlOf(marks)) && FillOnly(NetPnlOf(marks)) && FillOnly(Fee) && FillOnly(Residual)
  {
    forall row: OrderRow | Fill(row) == 0.0
      ensures PnlOf(marks)(row) == 0.0 && NetPnlOf(marks)(row) == 0.0 && Fee(row) == 0.0 && Residual(row) == 0.0
    {
      assert Notional(row) == 0.0 && SignedFill(row) == 0.0;
    }
  }

  /** A round's own ledger inside a sum over the rounds of its class. */
  lemma {:induction false} SumRoundsOfPnl(rounds: seq<seq<OrderRow>>, c: TradeClass, marks: Marks)
    ensures SumRounds(rounds, c, PnlOf(marks)) == SumOver(rounds, c, round => BrokerPnl(round, marks))
    ensures SumRounds(rounds, c, NetPnlOf(marks)) == SumOver(rounds, c, round => EconomicPnl(round, marks))
  {
    if rounds != [] {
      var n := |rounds| - 1;
      SumRoundsOfPnl(rounds[..n], c, marks);
      PnlIsTotal(rounds[n], marks);
    }
  }

  ghost function SumOver(rounds: seq<seq<OrderRow>>, c: TradeClass, g: seq<OrderRow> -> real): real {
    if rounds == [] then 0.0
    else
      var last := rounds[|rounds| - 1];
      SumOver(rounds[..|rounds| - 1], c, g) + if last != [] && last[0].tradeClass == c then g(last) else 0.0
  }

  // ---- Valued ledgers ----

  lemma {:induction false} ClassRowsAreRows(rows: seq<OrderRow>, c: TradeClass)
    ensures forall row :: row in ClassRows(rows, c) <==> row in rows && row.tradeClass == c
  {
    if rows != [] {
      ClassRowsAreRows(Front(rows), c);
      assert rows == Front(rows) + [Last(rows)];
    }
  }

  /** If every class ledger is valued, so is the aggregate: a symbol without a mark that is flat in
      each class is flat in total. */
  lemma ClassesValueAggregate(rows: seq<OrderRow>, marks: Marks)
    requires forall c :: Valued(ClassRows(rows, c), marks)
    ensures Valued(rows, marks)
  {
    forall i | 0 <= i < |rows| ensures Priced(rows[i]) {
      var c := rows[i].tradeClass;
      ClassRowsAreRows(rows, c);
      assert rows[i] in ClassRows(rows, c);
      assert AllPriced(ClassRows(rows, c));
    }
    forall symbol | Net(rows, symbol) != 0.0 ensures symbol in marks {
      ClassesConserve(rows, (row: OrderRow) => if row.symbol == symbol then SignedFill(row) else 0.0);
      var e, n, u := ClassRows(rows, EquipmentTest), ClassRows(rows, NewsStrategy), ClassRows(rows, Unclassified);
      assert Net(rows, symbol) == Net(e, symbol) + Net(n, symbol) + Net(u, symbol);
      assert Valued(e, marks) && Valued(n, marks) && Valued(u, marks);
    }
  }

  lemma {:induction false} RoundRowsAreRows(rows: seq<OrderRow>)
    ensures forall r, i :: 0 <= r < |Rounds(rows).rounds| && 0 <= i < |Rounds(rows).rounds[r]| ==> Rounds(rows).rounds[r][i] in rows
  {
    if rows != [] {
      RoundRowsAreRows(Front(rows));
      assert rows == Front(rows) + [Last(rows)];
    }
  }

  lemma {:induction false} OnlyRoundCounts(rounds: seq<seq<OrderRow>>, r: nat, c: TradeClass, f: OrderRow -> real)
    requires r < |rounds| && rounds[r] != [] && rounds[r][0].tradeClass == c
    requires forall q :: 0 <= q < |rounds| && q != r && rounds[q] != [] && rounds[q][0].tradeClass == c ==> Total(rounds[q], f) == 0.0
    ensures SumRounds(rounds, c, f) == Total(rounds[r], f)
    decreases |rounds|
  {
    var n := |rounds| - 1;
    if r == n { NoRoundCounts(rounds[..n], c, f); } else { OnlyRoundCounts(rounds[..n], r, c, f); }
  }

  lemma {:induction false} NoRoundCounts(rounds: seq<seq<OrderRow>>, c: TradeClass, f: OrderRow -> real)
    requires forall q :: 0 <= q < |rounds| && rounds[q] != [] && rounds[q][0].tradeClass == c ==> Total(rounds[q], f) == 0.0
    ensures SumRounds(rounds, c, f) == 0.0
  {
    if rounds != [] {
      var n := |rounds| - 1;
      assert forall q :: 0 <= q < n ==> rounds[..n][q] == rounds[q];
      NoRoundCounts(rounds[..n], c, f);
    }
  }

  lemma {:induction false} RoundNetBySymbol(round: seq<OrderRow>, symbol: Symbol, own: Symbol)
    requires forall i :: 0 <= i < |round| ==> round[i].symbol == own
    ensures Net(round, symbol) == if symbol == own then RoundNet(round) else 0.0
  {
    if round != [] {
      RoundNetBySymbol(Front(round), symbol, own);
      assert round[|round| - 1] == Last(round);
    }
  }

  /** If a class ledger is valued, each of its rounds is. */
  lemma ClassValuesRounds(rows: seq<OrderRow>, marks: Marks, r: nat)
    requires r < |Rounds(rows).rounds| && Rounds(rows).rounds[r] != []
    requires Valued(ClassRows(rows, Rounds(rows).rounds[r][0].tradeClass), marks)
    ensures Valued(Rounds(rows).rounds[r], marks)
  {
    var rounds := Rounds(rows).rounds;
    var round := rounds[r];
    var key := KeyOf(round[0]);
    var ledger := ClassRows(rows, key.tradeClass);
    RoundsOk(rows);
    assert RoundOk(round);
    forall i | 0 <= i < |round| ensures Priced(round[i]) {
      RoundRowsAreRows(rows);
      ClassRowsAreRows(rows, key.tradeClass);
      assert round[i] in ledger;
    }
    if RoundNet(round) != 0.0 { OpenRoundNet(rows, r); }
    forall symbol | Net(round, symbol) != 0.0 ensures symbol in marks {
      RoundNetBySymbol(round, symbol, key.symbol);
    }
  }

  /** The one unclosed round of a key carries the class's whole net quantity of the symbol. */
  lemma OpenRoundNet(rows: seq<OrderRow>, r: nat)
    requires r < |Rounds(rows).rounds| && RoundOk(Rounds(rows).rounds[r]) && RoundNet(Rounds(rows).rounds[r]) != 0.0
    ensures var round := Rounds(rows).rounds[r];
      Net(ClassRows(rows, round[0].tradeClass), round[0].symbol) == RoundNet(round)
  {
    var rounds := Rounds(rows).rounds;
    var key := KeyOf(rounds[r][0]);
    var f := (row: OrderRow) => if row.symbol == key.symbol then SignedFill(row) else 0.0;
    RoundsOk(rows);
    forall q | 0 <= q < |rounds| && q != r && rounds[q] != [] && rounds[q][0].tradeClass == key.tradeClass
      ensures Total(rounds[q], f) == 0.0
    {
      assert RoundOk(rounds[q]);
      RoundNetBySymbol(rounds[q], key.symbol, rounds[q][0].symbol);
      if q < r { EarlierRoundsClosed(rows, q, r); } else { EarlierRoundsClosed(rows, r, q); }
    }
    OnlyRoundCounts(rounds, r, key.tradeClass, f);
    RoundNetBySymbol(rounds[r], key.symbol, key.symbol);
    RoundsConserve(rows, key.tradeClass, f);
  }

  // ---- The decomposition ----

  ghost predicate ClassDecomposes(rows: seq<OrderRow>, marks: Marks, c: TradeClass) {
    var ledger, rounds := ClassRows(rows, c), Rounds(rows).rounds;
    && BrokerPnl(ledger, marks) == SumOver(rounds, c, round => BrokerPnl(round, marks))
    && EconomicPnl(ledger, marks) == SumOver(rounds, c, round => EconomicPnl(round, marks))
    && Total(ledger, Fee) == SumRounds(rounds, c, Fee)
    && Total(ledger, Residual) == SumRounds(rounds, c, Residual)
  }

  lemma ClassIsItsRounds(rows: seq<OrderRow>, marks: Marks, c: TradeClass)
    ensures ClassDecomposes(rows, marks, c)
  {
    PnlIsFillOnly(marks);
    RoundsConserve(rows, c, PnlOf(marks));
    RoundsConserve(rows, c, NetPnlOf(marks));
    RoundsConserve(rows, c, Fee);
    RoundsConserve(rows, c, Residual);
    PnlIsTotal(ClassRows(rows, c), marks);
    SumRoundsOfPnl(Rounds(rows).rounds, c, marks);
  }

  /** P&L, fees and residual costs of the aggregate are the sums over the classes, and those of each
      class are the sums over its rounds. */
  lemma LedgersDecompose(rows: seq<OrderRow>, marks: Marks)
    ensures var e, n, u := ClassRows(rows, EquipmentTest), ClassRows(rows, NewsStrategy), ClassRows(rows, Unclassified);
      && BrokerPnl(rows, marks) == BrokerPnl(e, marks) + BrokerPnl(n, marks) + BrokerPnl(u, marks)
      && EconomicPnl(rows, marks) == EconomicPnl(e, marks) + EconomicPnl(n, marks) + EconomicPnl(u, marks)
      && Total(rows, Fee) == Total(e, Fee) + Total(n, Fee) + Total(u, Fee)
      && Total(rows, Residual) == Total(e, Residual) + Total(n, Residual) + Total(u, Residual)
    ensures forall c :: ClassDecomposes(rows, marks, c)
  {
    ClassesConserve(rows, PnlOf(marks));
    ClassesConserve(rows, NetPnlOf(marks));
    ClassesConserve(rows, Fee);
    ClassesConserve(rows, Residual);
    PnlIsTotal(rows, marks);
    forall c ensures ClassDecomposes(rows, marks, c) {
      PnlIsTotal(ClassRows(rows, c), marks);
      ClassIsItsRounds(rows, marks, c);
    }
    PnlIsTotal(ClassRows(rows, EquipmentTest), marks);
    PnlIsTotal(ClassRows(rows, NewsStrategy), marks);
    PnlIsTotal(ClassRows(rows, Unclassified), marks);
  }

  method Select(rows: seq<OrderRow>, c: TradeClass) returns (selected: seq<OrderRow>)
    ensures selected == ClassRows(rows, c)
  {
    selected := [];
    for i := 0 to |rows|
      invariant selected == ClassRows(rows[..i], c)
    {
      assert Front(rows[..i + 1]) == rows[..i];
      if rows[i].tradeClass == c { selected := selected + [rows[i]]; }
    }
    assert rows[..|rows|] == rows;
  }

  datatype Allocation = Allocation(
    aggregate: Report, equipment: Report, news: Report, unclassified: Report, rounds: seq<seq<OrderRow>>)

  ghost predicate Allocates(a: Allocation, rows: seq<OrderRow>, marks: Marks) {
    && Reports(a.aggregate, rows, marks) && a.rounds == Rounds(rows).rounds
    && Reports(a.equipment, ClassRows(rows, EquipmentTest), marks)
    && Reports(a.news, ClassRows(rows, NewsStrategy), marks)
    && Reports(a.unclassified, ClassRows(rows, Unclassified), marks)
  }

  method Allocate(all: seq<OrderRow>, marks: Marks) returns (a: Allocation)
    ensures Allocates(a, ConfirmedRows(all), marks)
  {
    var rows := ConfirmedRows(all);
    var aggregate := Economics(rows, marks);
    var rounds := TradeRounds(rows);
    var e := Select(rows, EquipmentTest);
    var n := Select(rows, NewsStrategy);
    var u := Select(rows, Unclassified);
    var equipment := Economics(e, marks);
    var news := Economics(n, marks);
    var unclassified := Economics(u, marks);
    a := Allocation(aggregate, equipment, news, unclassified, rounds);
  }

  /** What a valued report says. */
  ghost predicate ValuedReport(r: Report, rows: seq<OrderRow>, marks: Marks) {
    && Valued(rows, marks)
    && r.brokerPnl == Some(BrokerPnl(rows, marks)) && r.economicPnl == Some(EconomicPnl(rows, marks))
    && r.fees == Some(Total(rows, Fee)) && r.omissions == Some(Total(rows, Residual))
  }

  lemma ValuedReports(r: Report, rows: seq<OrderRow>, marks: Marks)
    requires Reports(r, rows, marks) && (r.brokerPnl.Some? || Valued(rows, marks))
    ensures ValuedReport(r, rows, marks)
  {
  }

  /** When the three class ledgers of a report are valued, so is its aggregate, and the aggregate's
      P&L, fees and residual costs are their sums. */
  lemma ReportAddsUp(a: Allocation, rows: seq<OrderRow>, marks: Marks)
    requires Allocates(a, rows, marks)
    requires a.equipment.brokerPnl.Some? && a.news.brokerPnl.Some? && a.unclassified.brokerPnl.Some?
    ensures ValuedReport(a.aggregate, rows, marks)
    ensures ValuedReport(a.equipment, ClassRows(rows, EquipmentTest), marks)
    ensures ValuedReport(a.news, ClassRows(rows, NewsStrategy), marks)
    ensures ValuedReport(a.unclassified, ClassRows(rows, Unclassified), marks)
    ensures a.aggregate.brokerPnl.value == a.equipment.brokerPnl.value + a.news.brokerPnl.value + a.unclassified.brokerPnl.value
    ensures a.aggregate.economicPnl.value
         == a.equipment.economicPnl.value + a.news.economicPnl.value + a.unclassified.economicPnl.value
    ensures a.aggregate.fees.value == a.equipment.fees.value + a.news.fees.value + a.unclassified.fees.value
    ensures a.aggregate.omissions.value == a.equipment.omissions.value + a.news.omissions.value + a.unclassified.omissions.value
  {
    ValuedReports(a.equipment, ClassRows(rows, EquipmentTest), marks);
    ValuedReports(a.news, ClassRows(rows, NewsStrategy), marks);
    ValuedReports(a.unclassified, ClassRows(rows, Unclassified), marks);
    forall c ensures Valued(ClassRows(rows, c), marks) {
      match c case EquipmentTest => case NewsStrategy => case Unclassified =>
    }
    ClassesValueAggregate(rows, marks);
    ValuedReports(a.aggregate, rows, marks);
    LedgersDecompose(rows, marks);
  }
}
