/** Splitting confirmed fills into rounds and classes, and what the split conserves. */
module LedgerRounds {
  import opened Orders
  import opened Ledger

  datatype Key = Key(symbol: Symbol, tradeClass: TradeClass)

  function KeyOf(row: OrderRow): Key { Key(row.symbol, row.tradeClass) }

  /** `active` maps a key to the index of its unclosed round and that round's running quantity. */
  datatype Book = Book(rounds: seq<seq<OrderRow>>, active: map<Key, (nat, real)>)

  const EMPTY_BOOK := Book([], map[])

  predicate Bounded(book: Book) { forall k :: k in book.active ==> book.active[k].0 < |book.rounds| }

  function AddToBook(book: Book, row: OrderRow): (after: Book)
    requires Bounded(book)
    ensures Bounded(after)
  {
    if Fill(row) == 0.0 then book
    else
      var key := KeyOf(row);
      var index := if key in book.active then book.active[key].0 else |book.rounds|;
      var rounds := if key in book.active then book.rounds[index := book.rounds[index] + [row]]
                    else book.rounds + [[row]];
      var quantity := (if key in book.active then book.active[key].1 else 0.0) + SignedFill(row);
      Book(rounds, if quantity == 0.0 then book.active - {key} else book.active[key := (index, quantity)])
  }

  function Rounds(rows: seq<OrderRow>): (book: Book)
    ensures Bounded(book)
  {
    if rows == [] then EMPTY_BOOK else AddToBook(Rounds(Front(rows)), Last(rows))
  }

  method TradeRounds(rows: seq<OrderRow>) returns (rounds: seq<seq<OrderRow>>)
    ensures rounds == Rounds(rows).rounds
  {
    rounds := [];
    var active: map<Key, (nat, real)> := map[];
    for i := 0 to |rows|
      invariant Book(rounds, active) == Rounds(rows[..i])
    {
      var row := rows[i];
      assert Front(rows[..i + 1]) == rows[..i];
      if Fill(row) == 0.0 { continue; }
      ghost var before := Rounds(rows[..i]);
      var key := KeyOf(row);
      if key !in active {
        active := active[key := (|rounds|, 0.0)];
        rounds := rounds + [[]];
      }
      var (index, quantity) := active[key];
      assert rounds[index] == [] ==> rounds[index] + [row] == [row];
      rounds := rounds[index := rounds[index] + [row]];
      quantity := quantity + SignedFill(row);
      active := if quantity == 0.0 then active - {key} else active[key := (index, quantity)];
      assert rounds == AddToBook(before, row).rounds;
      assert active == AddToBook(before, row).active;
    }
    assert rows[..|rows|] == rows;
  }

  // ---- The shape of the rounds ----

  ghost function RoundNet(round: seq<OrderRow>): real { Total(round, SignedFill) }

  /** A nonempty run of filled rows of one key whose running quantity is zero at most at its end. */
  ghost predicate RoundOk(round: seq<OrderRow>) {
    && round != []
    && (forall i :: 0 <= i < |round| ==> KeyOf(round[i]) == KeyOf(round[0]) && Fill(round[i]) != 0.0)
    && (forall n :: 0 < n < |round| ==> RoundNet(round[..n]) != 0.0)
  }

  ghost predicate AllRoundsOk(rounds: seq<seq<OrderRow>>) {
    forall r :: 0 <= r < |rounds| ==> RoundOk(rounds[r])
  }

  /** A round that does not net to zero is its key's active one. */
  ghost predicate ClosedOrActive(book: Book, r: nat)
    requires r < |book.rounds| && RoundOk(book.rounds[r])
  {
    var k := KeyOf(book.rounds[r][0]);
    RoundNet(book.rounds[r]) == 0.0 || (k in book.active && book.active[k].0 == r)
  }

  /** An active entry names the last round of its key and that round's running quantity. */
  ghost predicate ActiveOk(book: Book, k: Key)
    requires Bounded(book) && AllRoundsOk(book.rounds) && k in book.active
  {
    var (r, quantity) := book.active[k];
    && KeyOf(book.rounds[r][0]) == k && RoundNet(book.rounds[r]) == quantity && quantity != 0.0
    && forall q :: r < q < |book.rounds| ==> KeyOf(book.rounds[q][0]) != k
  }

  ghost predicate BookOk(book: Book) {
    && Bounded(book) && AllRoundsOk(book.rounds)
    && (forall r :: 0 <= r < |book.rounds| ==> ClosedOrActive(book, r))
    && (forall k :: k in book.active ==> ActiveOk(book, k))
  }

  lemma ExtendRound(round: seq<OrderRow>, row: OrderRow)
    requires round == [] || (RoundOk(round) && RoundNet(round) != 0.0 && KeyOf(round[0]) == KeyOf(row))
    requires Fill(row) != 0.0
    ensures RoundOk(round + [row]) && RoundNet(round + [row]) == RoundNet(round) + SignedFill(row)
    ensures KeyOf((round + [row])[0]) == KeyOf(row)
  {
    FrontAppend(round, row);
    forall n | 0 < n < |round + [row]| ensures RoundNet((round + [row])[..n]) != 0.0 {
      assert (round + [row])[..n] == round[..n];
      if n == |round| { assert round[..n] == round; }
    }
  }

  lemma AddToActive(book: Book, row: OrderRow)
    requires BookOk(book) && Fill(row) != 0.0 && KeyOf(row) in book.active
    ensures BookOk(AddToBook(book, row))
  {
    var key := KeyOf(row);
    var index := book.active[key].0;
    var after := AddToBook(book, row);
    assert ActiveOk(book, key);
    ExtendRound(book.rounds[index], row);
    forall r | 0 <= r < |after.rounds| ensures RoundOk(after.rounds[r]) {
      assert r != index ==> after.rounds[r] == book.rounds[r];
    }
    forall r | 0 <= r < |after.rounds| ensures ClosedOrActive(after, r) {
      assert ClosedOrActive(book, r);
    }
    forall k | k in after.active ensures ActiveOk(after, k) {
      assert ActiveOk(book, k);
    }
  }

  lemma AddNewRound(book: Book, row: OrderRow)
    requires BookOk(book) && Fill(row) != 0.0 && KeyOf(row) !in book.active
    ensures BookOk(AddToBook(book, row))
  {
    var after := AddToBook(book, row);
    ExtendRound([], row);
    assert [row] == [] + [row];
    forall r | 0 <= r < |after.rounds| ensures RoundOk(after.rounds[r]) {
      assert r < |book.rounds| ==> after.rounds[r] == book.rounds[r];
    }
    forall r | 0 <= r < |after.rounds| ensures ClosedOrActive(after, r) {
      if r < |book.rounds| { assert ClosedOrActive(book, r); }
    }
    forall k | k in after.active ensures ActiveOk(after, k) {
      if k != KeyOf(row) { assert ActiveOk(book, k); }
    }
  }

  lemma AddKeepsBook(book: Book, row: OrderRow)
    requires BookOk(book)
    ensures BookOk(AddToBook(book, row))
  {
    if Fill(row) != 0.0 {
      if KeyOf(row) in book.active { AddToActive(book, row); } else { AddNewRound(book, row); }
    }
  }

  lemma {:induction false} RoundsOk(rows: seq<OrderRow>)
    ensures BookOk(Rounds(rows))
  {
    if rows != [] {
      RoundsOk(Front(rows));
      AddKeepsBook(Rounds(Front(rows)), Last(rows));
    }
  }

  // ---- The rounds partition the fills ----

  ghost function KeyRows(rows: seq<OrderRow>, key: Key): seq<OrderRow> {
    if rows == [] then []
    else if KeyOf(Last(rows)) == key && Fill(Last(rows)) != 0.0 then KeyRows(Front(rows), key) + [Last(rows)]
    else KeyRows(Front(rows), key)
  }

  ghost function Joined(rounds: seq<seq<OrderRow>>, key: Key): seq<OrderRow> {
    if rounds == [] then []
    else
      var last := rounds[|rounds| - 1];
      Joined(rounds[..|rounds| - 1], key) + if last != [] && KeyOf(last[0]) == key then last else []
  }

  lemma {:induction false} JoinedUpdate(rounds: seq<seq<OrderRow>>, r: nat, round: seq<OrderRow>, row: OrderRow, key: Key)
    requires r < |rounds| && rounds[r] == round != [] && KeyOf(row) == KeyOf(round[0])
    requires forall q :: r < q < |rounds| ==> rounds[q] != [] && KeyOf(rounds[q][0]) != KeyOf(row)
    ensures Joined(rounds[r := round + [row]], key) == Joined(rounds, key) + if KeyOf(row) == key then [row] else []
    decreases |rounds|
  {
    var n := |rounds| - 1;
    var after := rounds[r := round + [row]];
    if r == n {
      assert after[..n] == rounds[..n];
    } else {
      assert after[..n] == rounds[..n][r := round + [row]];
      JoinedUpdate(rounds[..n], r, round, row, key);
    }
  }

  lemma {:induction false} RoundsPartition(rows: seq<OrderRow>, key: Key)
    ensures Joined(Rounds(rows).rounds, key) == KeyRows(rows, key)
  {
    if rows != [] {
      var book, row := Rounds(Front(rows)), Last(rows);
      RoundsPartition(Front(rows), key);
      RoundsOk(Front(rows));
      if Fill(row) != 0.0 {
        var k := KeyOf(row);
        if k in book.active {
          assert ActiveOk(book, k);
          JoinedUpdate(book.rounds, book.active[k].0, book.rounds[book.active[k].0], row, key);
        } else {
          assert (book.rounds + [[row]])[..|book.rounds|] == book.rounds;
        }
      }
    }
  }

  /** Every round but the last of its key nets to zero, and none nets to zero before its end. */
  lemma EarlierRoundsClosed(rows: seq<OrderRow>, r: nat, q: nat)
    requires r < q < |Rounds(rows).rounds|
    ensures var rounds := Rounds(rows).rounds;
      RoundOk(rounds[r]) && RoundOk(rounds[q])
      && (KeyOf(rounds[r][0]) == KeyOf(rounds[q][0]) ==> RoundNet(rounds[r]) == 0.0)
  {
    RoundsOk(rows);
    var book := Rounds(rows);
    assert ClosedOrActive(book, r);
    var k := KeyOf(book.rounds[r][0]);
    if k in book.active { assert ActiveOk(book, k); }
  }

  // ---- Conservation ----

  ghost predicate FillOnly(f: OrderRow -> real) { forall row :: Fill(row) == 0.0 ==> f(row) == 0.0 }

  ghost function SumRounds(rounds: seq<seq<OrderRow>>, tradeClass: TradeClass, f: OrderRow -> real): real {
    if rounds == [] then 0.0
    else
      var last := rounds[|rounds| - 1];
      SumRounds(rounds[..|rounds| - 1], tradeClass, f)
      + if last != [] && last[0].tradeClass == tradeClass then Total(last, f) else 0.0
  }

  ghost function ClassRows(rows: seq<OrderRow>, tradeClass: TradeClass): seq<OrderRow> {
    if rows == [] then []
    else if Last(rows).tradeClass == tradeClass then ClassRows(Front(rows), tradeClass) + [Last(rows)]
    else ClassRows(Front(rows), tradeClass)
  }

  lemma {:induction false} SumRoundsUpdate(rounds: seq<seq<OrderRow>>, r: nat, row: OrderRow, c: TradeClass, f: OrderRow -> real)
    requires r < |rounds| && rounds[r] != [] && rounds[r][0].tradeClass == row.tradeClass
    ensures SumRounds(rounds[r := rounds[r] + [row]], c, f) == SumRounds(rounds, c, f) + if row.tradeClass == c then f(row) else 0.0
    decreases |rounds|
  {
    var n := |rounds| - 1;
    var after := rounds[r := rounds[r] + [row]];
    FrontAppend(rounds[r], row);
    if r == n {
      assert after[..n] == rounds[..n];
    } else {
      assert after[..n] == rounds[..n][r := rounds[r] + [row]];
      SumRoundsUpdate(rounds[..n], r, row, c, f);
    }
  }

  lemma BookConserves(book: Book, row: OrderRow, c: TradeClass, f: OrderRow -> real)
    requires BookOk(book) && FillOnly(f)
    ensures SumRounds(AddToBook(book, row).rounds, c, f) == SumRounds(book.rounds, c, f) + if row.tradeClass == c then f(row) else 0.0
  {
    if Fill(row) != 0.0 {
      var k := KeyOf(row);
      if k in book.active {
        assert ActiveOk(book, k);
        SumRoundsUpdate(book.rounds, book.active[k].0, row, c, f);
      } else {
        assert (book.rounds + [[row]])[..|book.rounds|] == book.rounds;
        assert Total([row], f) == f(row) by { FrontAppend([], row); assert [row] == [] + [row]; }
      }
    }
  }

  /** Any quantity that only fills contribute to: the rounds of a class add up to the class ledger. */
  lemma {:induction false} RoundsConserve(rows: seq<OrderRow>, c: TradeClass, f: OrderRow -> real)
    requires FillOnly(f)
    ensures SumRounds(Rounds(rows).rounds, c, f) == Total(ClassRows(rows, c), f)
  {
    if rows != [] {
      RoundsConserve(Front(rows), c, f);
      RoundsOk(Front(rows));
      BookConserves(Rounds(Front(rows)), Last(rows), c, f);
      FrontAppend(ClassRows(Front(rows), c), Last(rows));
    }
  }

  lemma {:induction false} ClassesConserve(rows: seq<OrderRow>, f: OrderRow -> real)
    ensures Total(rows, f) == Total(ClassRows(rows, EquipmentTest), f) + Total(ClassRows(rows, NewsStrategy), f)
                            + Total(ClassRows(rows, Unclassified), f)
  {
    if rows != [] {
      ClassesConserve(Front(rows), f);
      FrontAppend(ClassRows(Front(rows), Last(rows).tradeClass), Last(rows));
    }
  }
}
