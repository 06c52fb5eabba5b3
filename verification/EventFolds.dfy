/** Candidate events and their temporal folds: training labels never reach past the first test signal. */
module EventFolds {
  const HOLDING_DAYS := 5
  const TRAINING_DAYS := 504
  const TESTING_DAYS := 126
  const DAY := 86_400

  /** An event signals on one frame and is settled on a later one; frames are named by their index. */
  datatype Event = Event(symbol: string, signal: nat, outcome: nat)

  /** Frame timestamps, oldest first. */
  ghost predicate Increasing(frames: seq<int>) { forall i, j :: 0 <= i < j < |frames| ==> frames[i] < frames[j] }

  // ---- Building events ----

  function EventsAt(symbols: seq<string>, index: nat, keeps: (string, nat) -> bool): seq<Event> {
    if symbols == [] then []
    else
      EventsAt(symbols[..|symbols| - 1], index, keeps)
      + if keeps(symbols[|symbols| - 1], index) then [Event(symbols[|symbols| - 1], index, index + 1 + HOLDING_DAYS)] else []
  }

  function EventsBefore(symbols: seq<string>, index: nat, keeps: (string, nat) -> bool): seq<Event> {
    if index <= 63 then [] else EventsBefore(symbols, index - 1, keeps) + EventsAt(symbols, index - 1, keeps)
  }

  /** None where fewer than 70 frames raise. `keeps` says whose expected move exceeds its cost. */
  method BuildEvents(frames: seq<int>, symbols: seq<string>, keeps: (string, nat) -> bool) returns (r: (bool, seq<Event>))
    ensures r.0 <==> |frames| >= 70
    ensures r.0 ==> r.1 == BuiltFrom(frames, symbols, keeps)
  {
    if |frames| < 70 { return (false, []); }
    var events, index := [], 63;
    while index < |frames| - HOLDING_DAYS - 1
      invariant 63 <= index <= |frames| - HOLDING_DAYS - 1
      invariant events == EventsBefore(symbols, index, keeps)
    {
      ghost var before := events;
      var i := 0;
      while i < |symbols|
        invariant i <= |symbols| && events == before + EventsAt(symbols[..i], index, keeps)
      {
        assert symbols[..i + 1][..i] == symbols[..i];
        if keeps(symbols[i], index) { events := events + [Event(symbols[i], index, index + 1 + HOLDING_DAYS)]; }
        i := i + 1;
      }
      assert symbols[..i] == symbols;
      index := index + 1;
    }
    r := (true, events);
  }

  /** What the folds rely on: every event is settled six frames after its signal, on an existing frame. */
  ghost predicate EventsOk(frames: seq<int>, events: seq<Event>) {
    forall k :: 0 <= k < |events| ==> events[k].outcome == events[k].signal + 1 + HOLDING_DAYS && events[k].outcome < |frames|
  }

  lemma {:induction false} EventsAtOk(symbols: seq<string>, index: nat, keeps: (string, nat) -> bool)
    ensures forall e :: e in EventsAt(symbols, index, keeps) ==> e.signal == index && e.outcome == index + 1 + HOLDING_DAYS
    ensures forall e :: e in EventsAt(symbols, index, keeps) ==> e.symbol in symbols && keeps(e.symbol, index)
  {
    if symbols != [] { EventsAtOk(symbols[..|symbols| - 1], index, keeps); }
  }

  lemma {:induction false} BuiltEventsOk(symbols: seq<string>, index: nat, keeps: (string, nat) -> bool)
    ensures forall e :: e in EventsBefore(symbols, index, keeps) ==>
              63 <= e.signal < index && e.outcome == e.signal + 1 + HOLDING_DAYS && keeps(e.symbol, e.signal)
  {
    if index > 63 {
      BuiltEventsOk(symbols, index - 1, keeps);
      EventsAtOk(symbols, index - 1, keeps);
    }
  }

  lemma BuiltEventsFit(frames: seq<int>, symbols: seq<string>, keeps: (string, nat) -> bool)
    requires |frames| >= 70
    ensures EventsOk(frames, EventsBefore(symbols, |frames| - HOLDING_DAYS - 1, keeps))
  {
    BuiltEventsOk(symbols, |frames| - HOLDING_DAYS - 1, keeps);
  }

  // ---- Dates ----

  function DateOf(frames: seq<int>, e: Event): int
    requires e.signal < |frames|
  {
    frames[e.signal] / DAY
  }

  ghost predicate Strict(dates: seq<int>) { forall i, j :: 0 <= i < j < |dates| ==> dates[i] < dates[j] }

  function InsertDate(dates: seq<int>, day: int): seq<int> {
    if dates == [] || dates[|dates| - 1] < day then dates + [day]
    else if dates[|dates| - 1] == day then dates
    else InsertDate(dates[..|dates| - 1], day) + [dates[|dates| - 1]]
  }

  /** The distinct signal dates in order. */
  function Dates(frames: seq<int>, events: seq<Event>): seq<int>
    requires forall k :: 0 <= k < |events| ==> events[k].signal < |frames|
  {
    if events == [] then []
    else InsertDate(Dates(frames, events[..|events| - 1]), DateOf(frames, events[|events| - 1]))
  }

  lemma AppendStrict(dates: seq<int>, day: int)
    requires Strict(dates) && forall d :: d in dates ==> d < day
    ensures Strict(dates + [day])
  {
    forall i | 0 <= i < |dates| ensures dates[i] < day { assert dates[i] in dates; }
  }

  lemma {:induction false} InsertDateSorts(dates: seq<int>, day: int)
    requires Strict(dates)
    ensures Strict(InsertDate(dates, day)) && forall d :: d in InsertDate(dates, day) <==> d in dates || d == day
    decreases |dates|
  {
    if dates != [] && dates[|dates| - 1] > day {
      var front, last := dates[..|dates| - 1], dates[|dates| - 1];
      InsertDateSorts(front, day);
      assert dates == front + [last];
      AppendStrict(InsertDate(front, day), last);
    }
  }

  lemma {:induction false} DatesSorted(frames: seq<int>, events: seq<Event>)
    requires forall k :: 0 <= k < |events| ==> events[k].signal < |frames|
    ensures Strict(Dates(frames, events))
    ensures forall d :: d in Dates(frames, events) ==> exists k :: 0 <= k < |events| && DateOf(frames, events[k]) == d
    ensures forall k :: 0 <= k < |events| ==> DateOf(frames, events[k]) in Dates(frames, events)
  {
    if events != [] {
      var front := events[..|events| - 1];
      DatesSorted(frames, front);
      InsertDateSorts(Dates(frames, front), DateOf(frames, events[|events| - 1]));
      forall d | d in Dates(frames, events) ensures exists k :: 0 <= k < |events| && DateOf(frames, events[k]) == d {
        if d in Dates(frames, front) {
          var k :| 0 <= k < |front| && DateOf(frames, front[k]) == d;
          assert events[k] == front[k];
        }
      }
      forall k | 0 <= k < |events| ensures DateOf(frames, events[k]) in Dates(frames, events) {
        if k < |front| { assert front[k] == events[k]; }
      }
    }
  }

  // ---- Folds ----

  /** The events of one date, in their order. */
  function OnDate(frames: seq<int>, events: seq<Event>, day: int): seq<Event>
    requires forall k :: 0 <= k < |events| ==> events[k].signal < |frames|
  {
    if events == [] then []
    else
      var e := events[|events| - 1];
      OnDate(frames, events[..|events| - 1], day) + if DateOf(frames, e) == day then [e] else []
  }

  /** The events of a run of dates. */
  function OnDates(frames: seq<int>, events: seq<Event>, days: seq<int>): seq<Event>
    requires forall k :: 0 <= k < |events| ==> events[k].signal < |frames|
  {
    if days == [] then [] else OnDates(frames, events, days[..|days| - 1]) + OnDate(frames, events, days[|days| - 1])
  }

  datatype Fold = Fold(training: seq<Event>, testing: seq<Event>)

  const TEST_OFFSET := TRAINING_DAYS + HOLDING_DAYS

  /** Folds start TESTING_DAYS dates apart. */
  function FoldStart(k: nat): nat { 126 * k }

  /** The k-th fold trains on 504 dates and, after five skipped dates, tests on 126. */
  function FoldAt(frames: seq<int>, events: seq<Event>, dates: seq<int>, k: nat): Fold
    requires forall i :: 0 <= i < |events| ==> events[i].signal < |frames|
    requires FoldStart(k) + TEST_OFFSET + TESTING_DAYS <= |dates|
  {
    var start := FoldStart(k);
    Fold(OnDates(frames, events, dates[start..start + TRAINING_DAYS]),
         OnDates(frames, events, dates[start + TEST_OFFSET..start + TEST_OFFSET + TESTING_DAYS]))
  }

  method MakeFolds(frames: seq<int>, events: seq<Event>) returns (folds: seq<Fold>)
    requires forall i :: 0 <= i < |events| ==> events[i].signal < |frames|
    ensures var dates := Dates(frames, events);
      FoldStart(|folds|) + TEST_OFFSET + TESTING_DAYS > |dates| && FoldsOk(frames, events, dates, folds)
  {
    var dates := Dates(frames, events);
    folds := [];
    var start := 0;
    while true
      invariant start == FoldStart(|folds|) && FoldsOk(frames, events, dates, folds)
      decreases |dates| - start
    {
      var trainingEnd := start + TRAINING_DAYS;
      var testingStart := trainingEnd + HOLDING_DAYS;
      var testingEnd := testingStart + TESTING_DAYS;
      if testingEnd > |dates| { break; }
      var fold := Fold(OnDates(frames, events, dates[start..trainingEnd]),
                       OnDates(frames, events, dates[testingStart..testingEnd]));
      AppendFold(frames, events, dates, folds, fold);
      folds := folds + [fold];
      start := start + TESTING_DAYS;
    }
  }

  ghost predicate FoldsOk(frames: seq<int>, events: seq<Event>, dates: seq<int>, folds: seq<Fold>)
    requires forall i :: 0 <= i < |events| ==> events[i].signal < |frames|
  {
    forall k :: 0 <= k < |folds| ==> IsFold(frames, events, dates, k, folds[k])
  }

  ghost predicate IsFold(frames: seq<int>, events: seq<Event>, dates: seq<int>, k: nat, fold: Fold)
    requires forall i :: 0 <= i < |events| ==> events[i].signal < |frames|
  {
    FoldStart(k) + TEST_OFFSET + TESTING_DAYS <= |dates| && fold == FoldAt(frames, events, dates, k)
  }

  lemma AppendFold(frames: seq<int>, events: seq<Event>, dates: seq<int>, folds: seq<Fold>, fold: Fold)
    requires forall i :: 0 <= i < |events| ==> events[i].signal < |frames|
    requires FoldsOk(frames, events, dates, folds) && FoldStart(|folds|) + TEST_OFFSET + TESTING_DAYS <= |dates|
    requires fold == FoldAt(frames, events, dates, |folds|)
    ensures FoldsOk(frames, events, dates, folds + [fold])
  {
    assert IsFold(frames, events, dates, |folds|, fold);
  }

  lemma {:induction false} OnDateHas(frames: seq<int>, events: seq<Event>, day: int)
    requires forall k :: 0 <= k < |events| ==> events[k].signal < |frames|
    ensures forall e :: e in OnDate(frames, events, day) <==> e in events && DateOf(frames, e) == day
  {
    if events != [] {
      OnDateHas(frames, events[..|events| - 1], day);
      assert events == events[..|events| - 1] + [events[|events| - 1]];
    }
  }

  lemma {:induction false} OnDatesHas(frames: seq<int>, events: seq<Event>, days: seq<int>)
    requires forall k :: 0 <= k < |events| ==> events[k].signal < |frames|
    ensures forall e :: e in OnDates(frames, events, days) <==> e in events && DateOf(frames, e) in days
  {
    if days != [] {
      OnDatesHas(frames, events, days[..|days| - 1]);
      OnDateHas(frames, events, days[|days| - 1]);
      assert days == days[..|days| - 1] + [days[|days| - 1]];
    }
  }

  lemma DateOrder(frames: seq<int>, i: nat, j: nat)
    requires Increasing(frames) && i < |frames| && j < |frames|
    ensures j <= i ==> frames[j] / DAY <= frames[i] / DAY
  {
  }

  /** Signals on dates n apart lie at least n frames apart, for every date has a signal of its own. */
  lemma {:induction false} DatesSpreadFrames(frames: seq<int>, events: seq<Event>, dates: seq<int>, e: Event, u: Event,
                                             a: nat, n: nat)
    requires Increasing(frames) && (forall k :: 0 <= k < |events| ==> events[k].signal < |frames|)
    requires dates == Dates(frames, events) && a + n < |dates| && e in events && u in events
    requires DateOf(frames, e) == dates[a] && DateOf(frames, u) == dates[a + n]
    ensures n > 0 ==> e.signal + n <= u.signal
    decreases n
  {
    if n > 0 {
      DatesSorted(frames, events);
      assert dates[a + n - 1] in dates;
      var k :| 0 <= k < |events| && DateOf(frames, events[k]) == dates[a + n - 1];
      DatesSpreadFrames(frames, events, dates, e, events[k], a, n - 1);
      DateOrder(frames, events[k].signal, u.signal);
      if n == 1 { DateOrder(frames, e.signal, u.signal); }
    }
  }

  /** In every fold each training outcome is known no later than the first test signal, although folds
      count event dates while outcomes count frames. */
  lemma NoLabelLeakage(frames: seq<int>, events: seq<Event>, k: nat, e: Event, u: Event)
    requires Increasing(frames) && EventsOk(frames, events)
    requires FoldStart(k) + TEST_OFFSET + TESTING_DAYS <= |Dates(frames, events)|
    requires e in FoldAt(frames, events, Dates(frames, events), k).training
    requires u in FoldAt(frames, events, Dates(frames, events), k).testing
    ensures e.outcome <= u.signal < |frames| && frames[e.outcome] <= frames[u.signal]
  {
    var a := Trained(frames, events, Dates(frames, events), k, e);
    var b := Tested(frames, events, Dates(frames, events), k, u);
    DatesSpreadFrames(frames, events, Dates(frames, events), e, u, a, b - a);
  }

  lemma Trained(frames: seq<int>, events: seq<Event>, dates: seq<int>, k: nat, e: Event) returns (a: nat)
    requires EventsOk(frames, events) && FoldStart(k) + TEST_OFFSET + TESTING_DAYS <= |dates|
    requires e in FoldAt(frames, events, dates, k).training
    ensures e in events && FoldStart(k) <= a < FoldStart(k) + TRAINING_DAYS && dates[a] == DateOf(frames, e)
  {
    a := DatedIn(frames, events, dates, FoldStart(k), FoldStart(k) + TRAINING_DAYS, e);
  }

  lemma Tested(frames: seq<int>, events: seq<Event>, dates: seq<int>, k: nat, u: Event) returns (b: nat)
    requires EventsOk(frames, events) && FoldStart(k) + TEST_OFFSET + TESTING_DAYS <= |dates|
    requires u in FoldAt(frames, events, dates, k).testing
    ensures FoldStart(k) + TEST_OFFSET <= b < FoldStart(k) + TEST_OFFSET + TESTING_DAYS
    ensures u in events && dates[b] == DateOf(frames, u)
  {
    var from := FoldStart(k) + TEST_OFFSET;
    b := DatedIn(frames, events, dates, from, from + TESTING_DAYS, u);
  }

  lemma DatedIn(frames: seq<int>, events: seq<Event>, dates: seq<int>, from: nat, to: nat, e: Event) returns (a: nat)
    requires forall k :: 0 <= k < |events| ==> events[k].signal < |frames|
    requires from <= to <= |dates| && e in OnDates(frames, events, dates[from..to])
    ensures e in events && from <= a < to && dates[a] == DateOf(frames, e)
  {
    var days := dates[from..to];
    OnDatesHas(frames, events, days);
    var j :| 0 <= j < |days| && days[j] == DateOf(frames, e);
    a := from + j;
  }

  /** Test blocks are disjoint and contiguous: fold k tests exactly the events whose date lies from its
      own first test date up to that of fold k + 1. */
  lemma TestedOnce(frames: seq<int>, events: seq<Event>, k: nat, e: Event, n: nat)
    requires EventsOk(frames, events) && e in events
    requires FoldStart(k) + TEST_OFFSET + TESTING_DAYS <= |Dates(frames, events)|
    requires n < |Dates(frames, events)| && Dates(frames, events)[n] == DateOf(frames, e)
    ensures e in FoldAt(frames, events, Dates(frames, events), k).testing
            <==> FoldStart(k) + TEST_OFFSET <= n < FoldStart(k + 1) + TEST_OFFSET
  {
    var dates := Dates(frames, events);
    DatesSorted(frames, events);
    var from := FoldStart(k) + TEST_OFFSET;
    var block := dates[from..from + TESTING_DAYS];
    OnDatesHas(frames, events, block);
    InBlock(dates, from, from + TESTING_DAYS, n);
  }

  lemma InBlock(dates: seq<int>, from: nat, to: nat, n: nat)
    requires Strict(dates) && from <= to <= |dates| && n < |dates|
    ensures dates[n] in dates[from..to] <==> from <= n < to
  {
    if from <= n < to {
      assert dates[from..to][n - from] == dates[n];
    } else {
      forall j | 0 <= j < to - from ensures dates[from..to][j] != dates[n] { assert dates[from..to][j] == dates[from + j]; }
    }
  }

  /** Which of its events a fold trains on and tests, by the number of their date: 504 dates, five skipped
      while the last training outcome settles, then 126; the next fold starts 126 dates later. */
  lemma FoldHoldsDates(frames: seq<int>, events: seq<Event>, k: nat, e: Event, n: nat)
    requires EventsOk(frames, events) && e in events
    requires 126 * k + 504 + 5 + 126 <= |Dates(frames, events)|
    requires n < |Dates(frames, events)| && Dates(frames, events)[n] == frames[e.signal] / 86_400
    ensures var fold := FoldAt(frames, events, Dates(frames, events), k);
      && (e in fold.training <==> 126 * k <= n < 126 * k + 504)
      && (e in fold.testing <==> 126 * k + 509 <= n < 126 * k + 635)
  {
    var dates := Dates(frames, events);
    DatesSorted(frames, events);
    OnDatesHas(frames, events, dates[126 * k..126 * k + 504]);
    InBlock(dates, 126 * k, 126 * k + 504, n);
    OnDatesHas(frames, events, dates[126 * k + 509..126 * k + 635]);
    InBlock(dates, 126 * k + 509, 126 * k + 635, n);
  }

  lemma {:induction false} EventsAtHas(symbols: seq<string>, index: nat, keeps: (string, nat) -> bool, e: Event)
    ensures e in EventsAt(symbols, index, keeps)
            <==> e.symbol in symbols && keeps(e.symbol, index) && e.signal == index && e.outcome == index + 6
  {
    if symbols != [] {
      EventsAtHas(symbols[..|symbols| - 1], index, keeps, e);
      assert symbols == symbols[..|symbols| - 1] + [symbols[|symbols| - 1]];
    }
  }

  /** Every kept symbol of every frame from the 64th on whose outcome has settled is an event, and
      nothing else is. */
  lemma {:induction false} EventsBeforeHas(symbols: seq<string>, index: nat, keeps: (string, nat) -> bool, e: Event)
    ensures e in EventsBefore(symbols, index, keeps)
            <==> e.symbol in symbols && keeps(e.symbol, e.signal) && 63 <= e.signal < index && e.outcome == e.signal + 6
  {
    if index > 63 {
      EventsBeforeHas(symbols, index - 1, keeps, e);
      EventsAtHas(symbols, index - 1, keeps, e);
    }
  }

  lemma BuiltEventsAre(frames: seq<int>, symbols: seq<string>, keeps: (string, nat) -> bool, e: Event)
    requires |frames| >= 70
    ensures e in BuiltFrom(frames, symbols, keeps)
            <==> e.symbol in symbols && keeps(e.symbol, e.signal) && 63 <= e.signal && e.outcome == e.signal + 6 < |frames|
  {
    EventsBeforeHas(symbols, |frames| - HOLDING_DAYS - 1, keeps, e);
  }

  /** So no fold of the events built from any frames, symbols and selection leaks a label: whatever it
      trains on was settled by the frame of whatever it tests. */
  lemma BuiltFoldsDoNotLeak(frames: seq<int>, symbols: seq<string>, keeps: (string, nat) -> bool, k: nat, e: Event, u: Event)
    requires Increasing(frames) && |frames| >= 70
    requires BuiltFits(frames, symbols, keeps, k)
    requires e in BuiltFold(frames, symbols, keeps, k).training && u in BuiltFold(frames, symbols, keeps, k).testing
    ensures e.outcome <= u.signal < |frames| && frames[e.outcome] <= frames[u.signal]
    ensures keeps(e.symbol, e.signal) && keeps(u.symbol, u.signal)
  {
    var events := BuiltFrom(frames, symbols, keeps);
    BuiltEventsFit(frames, symbols, keeps);
    NoLabelLeakage(frames, events, k, e, u);
    var a := Trained(frames, events, Dates(frames, events), k, e);
    var b := Tested(frames, events, Dates(frames, events), k, u);
    BuiltEventsOk(symbols, |frames| - HOLDING_DAYS - 1, keeps);
  }

  function BuiltFrom(frames: seq<int>, symbols: seq<string>, keeps: (string, nat) -> bool): (events: seq<Event>)
    requires |frames| >= 70
    ensures EventsOk(frames, events)
  {
    BuiltEventsFit(frames, symbols, keeps);
    EventsBefore(symbols, |frames| - HOLDING_DAYS - 1, keeps)
  }

  predicate BuiltFits(frames: seq<int>, symbols: seq<string>, keeps: (string, nat) -> bool, k: nat)
    requires |frames| >= 70
  {
    FoldStart(k) + TEST_OFFSET + TESTING_DAYS <= |Dates(frames, BuiltFrom(frames, symbols, keeps))|
  }

  function BuiltFold(frames: seq<int>, symbols: seq<string>, keeps: (string, nat) -> bool, k: nat): Fold
    requires |frames| >= 70 && BuiltFits(frames, symbols, keeps, k)
  {
    var events := BuiltFrom(frames, symbols, keeps);
    FoldAt(frames, events, Dates(frames, events), k)
  }
}
