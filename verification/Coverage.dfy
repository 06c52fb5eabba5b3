/** How far a set of source polls covers the time since a boundary. */
module Coverage {
  import opened Orders

  /** A recorded poll; None where a timestamp is missing or unreadable. */
  datatype PollRow = PollRow(start: Option<int>, watermark: Option<int>, observed: Option<int>, complete: bool)

  datatype Interval = Interval(left: int, right: int)

  datatype Report = Report(watermark: Option<int>, complete: bool, uncovered: Option<Interval>, incompletePolls: nat)

  function ValidInterval(p: PollRow): Option<Interval> {
    if p.complete && p.start.Some? && p.watermark.Some? && p.observed.Some?
       && p.start.value < p.watermark.value <= p.observed.value
    then Some(Interval(p.start.value, p.watermark.value)) else None
  }

  /** A moment that some poll covers: it is complete, it has all three times, its watermark lies after its
      start and not after its observation, and the moment lies from its start up to its watermark. */
  ghost predicate Covered(polls: seq<PollRow>, t: int) {
    exists k :: 0 <= k < |polls| && Covers(polls[k], t)
  }

  ghost predicate Covers(p: PollRow, t: int) {
    && p.complete && p.start.Some? && p.watermark.Some? && p.observed.Some?
    && p.start.value <= t < p.watermark.value <= p.observed.value
  }

  /** The first moment from `start` on that no valid poll covers. */
  ghost predicate FirstGap(polls: seq<PollRow>, start: int, w: int) {
    start <= w && !Covered(polls, w) && forall t :: start <= t < w ==> Covered(polls, t)
  }

  lemma FirstGapIsUnique(polls: seq<PollRow>, start: int, v: int, w: int)
    requires FirstGap(polls, start, v) && FirstGap(polls, start, w)
    ensures v == w
  {
  }

  function CountIncomplete(polls: seq<PollRow>): nat {
    if polls == [] then 0 else CountIncomplete(polls[..|polls| - 1]) + if polls[|polls| - 1].complete then 0 else 1
  }

  lemma {:induction false} IncompleteCounted(polls: seq<PollRow>)
    ensures CountIncomplete(polls) == |set k | 0 <= k < |polls| && !polls[k].complete|
  {
    if polls != [] {
      var last := |polls| - 1;
      var front := set k | 0 <= k < last && !polls[..last][k].complete;
      IncompleteCounted(polls[..last]);
      assert (set k | 0 <= k < |polls| && !polls[k].complete) == front + if polls[last].complete then {} else {last};
    }
  }

  // ---- Sorting pairs ----

  predicate Before(a: Interval, b: Interval) { a.left < b.left || (a.left == b.left && a.right <= b.right) }

  ghost predicate Ascending(s: seq<Interval>) { forall i, j :: 0 <= i < j < |s| ==> s[i].left <= s[j].left }

  function InsertPair(s: seq<Interval>, x: Interval): seq<Interval> {
    if s == [] || Before(s[|s| - 1], x) then s + [x] else InsertPair(s[..|s| - 1], x) + [s[|s| - 1]]
  }

  function SortPairs(s: seq<Interval>): seq<Interval> {
    if s == [] then [] else InsertPair(SortPairs(s[..|s| - 1]), s[|s| - 1])
  }

  lemma AppendAscends(s: seq<Interval>, x: Interval)
    requires Ascending(s) && forall y :: y in s ==> y.left <= x.left
    ensures Ascending(s + [x])
  {
  }

  lemma {:induction false} InsertPairSorts(s: seq<Interval>, x: Interval)
    requires Ascending(s)
    ensures Ascending(InsertPair(s, x)) && forall y :: y in InsertPair(s, x) <==> y in s || y == x
    decreases |s|
  {
    if s == [] || Before(s[|s| - 1], x) {
      AppendAscends(s, x);
    } else {
      var front, last := s[..|s| - 1], s[|s| - 1];
      InsertPairSorts(front, x);
      assert s == front + [last];
      AppendAscends(InsertPair(front, x), last);
    }
  }

  lemma {:induction false} SortPairsSorts(s: seq<Interval>)
    ensures Ascending(SortPairs(s)) && forall y :: y in SortPairs(s) <==> y in s
  {
    if s != [] {
      SortPairsSorts(s[..|s| - 1]);
      InsertPairSorts(SortPairs(s[..|s| - 1]), s[|s| - 1]);
      assert s == s[..|s| - 1] + [s[|s| - 1]];
    }
  }

  // ---- The report ----

  method CoverageReport(polls: seq<PollRow>, start: int, target: int) returns (r: Report, ghost w: int)
    ensures FirstGap(polls, start, w) && forall v :: FirstGap(polls, start, v) ==> v == w
    ensures r.watermark == if w > start then Some(w) else None
    ensures r.complete <==> target > start && forall t :: start <= t < target ==> Covered(polls, t)
    ensures r.uncovered == if w < target then Some(Interval(w, target)) else None
    ensures r.incompletePolls == |set k | 0 <= k < |polls| && !polls[k].complete|
  {
    var intervals, incomplete, i := [], 0, 0;
    while i < |polls|
      invariant i <= |polls| && incomplete == CountIncomplete(polls[..i])
      invariant forall x :: x in intervals ==> exists k :: 0 <= k < i && ValidInterval(polls[k]) == Some(x)
      invariant forall k :: 0 <= k < i && ValidInterval(polls[k]).Some? ==> ValidInterval(polls[k]).value in intervals
    {
      var interval := ValidInterval(polls[i]);
      if interval.Some? { intervals := intervals + [interval.value]; }
      assert polls[..i + 1][..i] == polls[..i];
      if !polls[i].complete { incomplete := incomplete + 1; }
      i := i + 1;
    }
    assert polls[..i] == polls;
    IncompleteCounted(polls);
    SortPairsSorts(intervals);
    var watermark := Sweep(SortPairs(intervals), start, polls);
    w := watermark;
    forall v | FirstGap(polls, start, v) ensures v == w { FirstGapIsUnique(polls, start, v, w); }
    r := Report(if watermark > start then Some(watermark) else None, watermark >= target && target > start,
                if watermark < target then Some(Interval(watermark, target)) else None, incomplete);
  }

  /** Extends the watermark over every interval that starts at or before it. */
  method Sweep(sorted: seq<Interval>, start: int, ghost polls: seq<PollRow>) returns (watermark: int)
    requires Ascending(sorted)
    requires forall x :: x in sorted <==> exists k :: 0 <= k < |polls| && ValidInterval(polls[k]) == Some(x)
    ensures FirstGap(polls, start, watermark)
  {
    watermark := start;
    var i := 0;
    while i < |sorted|
      invariant i <= |sorted| && start <= watermark
      invariant forall t :: start <= t < watermark ==> Covered(polls, t)
      invariant forall k :: 0 <= k < i ==> sorted[k].right <= watermark || watermark < sorted[k].left
    {
      var x := sorted[i];
      if x.left <= watermark {
        assert x in sorted;
        ghost var k :| 0 <= k < |polls| && ValidInterval(polls[k]) == Some(x);
        forall t | watermark <= t < x.right ensures Covered(polls, t) { assert Covers(polls[k], t); }
        if watermark < x.right { watermark := x.right; }
      }
      i := i + 1;
    }
    forall k | 0 <= k < |polls| ensures !Covers(polls[k], watermark) {
      var v := ValidInterval(polls[k]);
      if v.Some? { assert v.value in sorted; }
    }
  }

  /** The watermark depends only on which valid intervals there are, not on the order or number of polls. */
  lemma OrderIsIrrelevant(a: seq<PollRow>, b: seq<PollRow>, start: int, v: int, w: int)
    requires forall x :: IsInterval(a, x) <==> IsInterval(b, x)
    requires FirstGap(a, start, v) && FirstGap(b, start, w)
    ensures v == w
  {
    forall t ensures Covered(a, t) <==> Covered(b, t) {
      SameCovered(a, b, t);
      SameCovered(b, a, t);
    }
    FirstGapIsUnique(b, start, v, w);
  }

  ghost predicate IsInterval(polls: seq<PollRow>, x: Interval) {
    exists k :: 0 <= k < |polls| && ValidInterval(polls[k]) == Some(x)
  }

  lemma SameCovered(a: seq<PollRow>, b: seq<PollRow>, t: int)
    requires forall x :: IsInterval(a, x) ==> IsInterval(b, x)
    ensures Covered(a, t) ==> Covered(b, t)
  {
    if Covered(a, t) {
      var k :| 0 <= k < |a| && Covers(a[k], t);
      var x := ValidInterval(a[k]).value;
      assert IsInterval(a, x);
      var j :| 0 <= j < |b| && ValidInterval(b[j]) == Some(x);
      assert Covers(b[j], t);
    }
  }
}
