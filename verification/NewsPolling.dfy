/** Resumable news pagination: what a poll may claim to have covered. */
module NewsPolling {
  import opened Orders

  datatype Article = Article(source: string, id: string, version: string)

  /** An article row that fails its schema checks raises in the middle of a page. */
  datatype Row = Good(article: Article) | Malformed

  datatype NextToken = NoToken | Text(text: string) | Junk

  datatype Reply = Broken | Page(rows: seq<Row>, next: NextToken)

  datatype Query = Query(start: int, end: int, symbols: seq<string>)

  /** A stable provider: the same query and page token always get the same reply. */
  type Server = (Query, Option<string>) -> Reply

  datatype Cursor = Cursor(query: Query, token: string, seen: set<string>)

  datatype News = News(cursor: Option<Cursor>, remembered: set<Article>)

  // ---- The listing a query has on the server ----

  predicate Continues(next: NextToken) { next.Text? && next.text != "" }

  predicate Finishes(next: NextToken) { next.NoToken? || next == Text("") }

  /** The token of page k when pages are followed from the first one; None past the end. */
  ghost function Walk(server: Server, q: Query, k: nat): Option<Option<string>> {
    if k == 0 then Some(None)
    else
      var before := Walk(server, q, k - 1);
      if before.None? then None
      else
        var reply := server(q, before.value);
        if reply.Page? && Continues(reply.next) then Some(Some(reply.next.text)) else None
  }

  predicate RowsIn(rows: seq<Row>, remembered: set<Article>) {
    forall k :: 0 <= k < |rows| ==> rows[k].Good? && rows[k].article in remembered
  }

  ghost predicate PageIn(server: Server, q: Query, k: nat, remembered: set<Article>) {
    var token := Walk(server, q, k);
    token.Some? && var reply := server(q, token.value); reply.Page? && RowsIn(reply.rows, remembered)
  }

  ghost predicate PagesIn(server: Server, q: Query, k: nat, remembered: set<Article>) {
    forall j: nat :: j < k ==> PageIn(server, q, j, remembered)
  }

  ghost predicate LastPage(server: Server, q: Query, k: nat) {
    var token := Walk(server, q, k);
    token.Some? && var reply := server(q, token.value); reply.Page? && Finishes(reply.next)
  }

  /** Every article the provider lists for the query has been remembered. */
  ghost predicate Covered(server: Server, q: Query, remembered: set<Article>) {
    exists last: nat :: LastPage(server, q, last) && PagesIn(server, q, last + 1, remembered)
  }

  // ---- Reading pages ----

  /** Remembers rows up to the first malformed one. */
  function Remember(rows: seq<Row>, remembered: set<Article>): (set<Article>, bool)
    decreases |rows|
  {
    if rows == [] then (remembered, true)
    else if rows[0].Malformed? then (remembered, false)
    else Remember(rows[1..], remembered + {rows[0].article})
  }

  /** At most `left` pages from the given token on; `fails` says which requests fail. The flag says
      whether the method returned, as opposed to raising. */
  ghost function ReadPages(server: Server, q: Query, s: News, token: Option<string>, seen: set<string>, left: nat,
                           fails: nat -> bool): (News, bool)
    decreases left
  {
    if left == 0 || fails(left) || server(q, token).Broken? then (s, false)
    else
      var page := server(q, token);
      var (remembered, ok) := Remember(page.rows, s.remembered);
      if !ok then (s.(remembered := remembered), false)
      else if Finishes(page.next) then (News(None, remembered), true)
      else if page.next.Junk? || page.next.text in seen then (News(None, remembered), false)
      else
        var t := page.next.text;
        ReadPages(server, q, News(Some(Cursor(q, t, seen + {t})), remembered), Some(t), seen + {t}, left - 1, fails)
  }

  // ---- One poll ----

  /** How another configured source of the poll ended. */
  datatype Other = Failed | Succeeded | Verified(at: int)

  datatype Request = Request(start: int, end: int, symbols: seq<string>, fails: nat -> bool, others: seq<Other>)

  datatype Outcome = Outcome(query: Query, complete: bool, watermark: Option<int>)

  /** The query a poll scans: an unfinished one keeps its pinned end. */
  function Pinned(cursor: Option<Cursor>, start: int, end: int, symbols: seq<string>): Query {
    if cursor.Some? && cursor.value.query.start == start && cursor.value.query.symbols == symbols
       && cursor.value.query.end <= end
    then cursor.value.query else Query(start, end, symbols)
  }

  function CoverageEnd(end: int, others: seq<Other>): int {
    if others == [] then end
    else
      var before := CoverageEnd(end, others[..|others| - 1]);
      var o := others[|others| - 1];
      if o.Verified? && o.at < before then o.at else before
  }

  ghost function Poll(server: Server, maxPages: nat, s: News, r: Request): (News, Outcome) {
    var q := Pinned(s.cursor, r.start, r.end, r.symbols);
    var from := if s.cursor.Some? && q == s.cursor.value.query then s else s.(cursor := None);
    var token := if from.cursor.Some? then Some(from.cursor.value.token) else None;
    var seen := if from.cursor.Some? then from.cursor.value.seen else {};
    var (t, returned) := ReadPages(server, q, from, token, seen, maxPages, r.fails);
    var covered := CoverageEnd(q.end, r.others);
    var complete := returned && Failed !in r.others && covered > r.start;
    (t, Outcome(q, complete, if complete then Some(covered) else None))
  }

  // ---- What the cursor promises ----

  /** The cursor stands on the page after k pages that have all been remembered. */
  ghost predicate StandsAt(server: Server, s: News, q: Query, token: Option<string>, k: nat) {
    Walk(server, q, k) == Some(token) && PagesIn(server, q, k, s.remembered)
  }

  ghost predicate CursorOk(server: Server, s: News) {
    s.cursor.Some? ==>
      var c := s.cursor.value;
      exists k: nat :: StandsAt(server, s, c.query, Some(c.token), k)
  }

  lemma {:induction false} RememberAll(rows: seq<Row>, remembered: set<Article>)
    ensures var (after, ok) := Remember(rows, remembered);
      remembered <= after && (ok ==> RowsIn(rows, after))
    decreases |rows|
  {
    if rows != [] && rows[0].Good? {
      RememberAll(rows[1..], remembered + {rows[0].article});
      var (after, ok) := Remember(rows, remembered);
      assert ok ==> forall k :: 1 <= k < |rows| ==> rows[k] == rows[1..][k - 1];
    }
  }

  lemma PagesStay(server: Server, q: Query, k: nat, r: set<Article>, after: set<Article>)
    requires PagesIn(server, q, k, r) && r <= after
    ensures PagesIn(server, q, k, after)
  {
    forall j: nat | j < k ensures PageIn(server, q, j, after) { assert PageIn(server, q, j, r); }
  }

  lemma CursorStays(server: Server, s: News, after: set<Article>)
    requires CursorOk(server, s) && s.remembered <= after
    ensures CursorOk(server, s.(remembered := after))
  {
    if s.cursor.Some? {
      var c := s.cursor.value;
      var k: nat :| StandsAt(server, s, c.query, Some(c.token), k);
      PagesStay(server, c.query, k, s.remembered, after);
      assert StandsAt(server, s.(remembered := after), c.query, Some(c.token), k);
    }
  }

  lemma PageRead(server: Server, q: Query, s: News, token: Option<string>, k: nat, after: set<Article>)
    requires StandsAt(server, s, q, token, k) && s.remembered <= after
    requires server(q, token).Page? && RowsIn(server(q, token).rows, after)
    ensures PagesIn(server, q, k + 1, after)
  {
    PagesStay(server, q, k, s.remembered, after);
    assert PageIn(server, q, k, after);
  }

  /** Whatever fails on the way, the cursor that is left stands behind remembered pages only; a read
      that returns has remembered the whole listing. */
  lemma {:induction false} ReadIsSound(server: Server, q: Query, s: News, token: Option<string>, seen: set<string>,
                                       left: nat, fails: nat -> bool, k: nat)
    requires CursorOk(server, s) && StandsAt(server, s, q, token, k)
    ensures var (t, returned) := ReadPages(server, q, s, token, seen, left, fails);
      && CursorOk(server, t) && s.remembered <= t.remembered
      && (returned ==> t.cursor.None? && Covered(server, q, t.remembered))
    decreases left
  {
    if left > 0 && !fails(left) && server(q, token).Page? {
      var page := server(q, token);
      var (after, ok) := Remember(page.rows, s.remembered);
      RememberAll(page.rows, s.remembered);
      CursorStays(server, s, after);
      if ok {
        PageRead(server, q, s, token, k, after);
        if Finishes(page.next) {
          assert LastPage(server, q, k);
        } else if !page.next.Junk? && page.next.text !in seen {
          var t := page.next.text;
          var next := News(Some(Cursor(q, t, seen + {t})), after);
          assert StandsAt(server, next, q, Some(t), k + 1);
          ReadIsSound(server, q, next, Some(t), seen + {t}, left - 1, fails, k + 1);
        }
      }
    }
  }

  ghost predicate SoundClaim(server: Server, r: Request, o: Outcome, remembered: set<Article>) {
    && o.query.start == r.start && o.query.symbols == r.symbols && o.query.end <= r.end
    && Covered(server, o.query, remembered)
    && o.watermark.Some? && r.start < o.watermark.value && EarliestEnd(o.watermark.value, o.query.end, r.others)
  }

  /** The earliest of the interval's end and the times the other sources were verified to; none failed. */
  ghost predicate EarliestEnd(w: int, end: int, others: seq<Other>) {
    && w <= end && (forall o :: o in others ==> !o.Failed? && (o.Verified? ==> w <= o.at))
    && (w == end || exists o :: o in others && o.Verified? && w == o.at)
  }

  /** A poll that claims complete coverage has remembered every article listed for the interval it
      scanned, no other source failed, and its watermark is the earliest of the interval's end and the
      times the other sources were verified to. */
  lemma PollIsSound(server: Server, maxPages: nat, s: News, r: Request)
    requires CursorOk(server, s)
    ensures var (t, o) := Poll(server, maxPages, s, r);
      && CursorOk(server, t) && s.remembered <= t.remembered
      && (o.complete ==> SoundClaim(server, r, o, t.remembered))
  {
    var q := Pinned(s.cursor, r.start, r.end, r.symbols);
    CoverageEndIsEarliest(q.end, r.others);
    if s.cursor.Some? && q == s.cursor.value.query {
      var c := s.cursor.value;
      var k: nat :| StandsAt(server, s, c.query, Some(c.token), k);
      ReadIsSound(server, q, s, Some(c.token), c.seen, maxPages, r.fails, k);
    } else {
      var from := s.(cursor := None);
      assert StandsAt(server, from, q, None, 0);
      ReadIsSound(server, q, from, None, {}, maxPages, r.fails, 0);
    }
  }

  lemma {:induction false} CoverageEndIsEarliest(end: int, others: seq<Other>)
    ensures Failed !in others ==> EarliestEnd(CoverageEnd(end, others), end, others)
  {
    if others != [] {
      var front := others[..|others| - 1];
      CoverageEndIsEarliest(end, front);
      assert others == front + [others[|others| - 1]];
    }
  }

  // ---- No page is read twice ----

  /** The tokens seen are those of the first k pages after the first, and no two of these are the same. */
  ghost predicate Visited(server: Server, q: Query, seen: set<string>, k: nat) {
    && (forall t :: t in seen ==> exists j: nat :: 0 < j <= k && Walk(server, q, j) == Some(Some(t)))
    && (forall j: nat :: 0 < j <= k ==> Walk(server, q, j).Some? && Walk(server, q, j).value.Some?
                                        && Walk(server, q, j).value.value in seen)
    && (forall i: nat, j: nat :: 0 < i < j <= k ==> Walk(server, q, i) != Walk(server, q, j))
  }

  ghost predicate VisitedAt(server: Server, c: Cursor, k: nat) {
    Walk(server, c.query, k) == Some(Some(c.token)) && Visited(server, c.query, c.seen, k)
  }

  ghost predicate Acyclic(server: Server, s: News) {
    s.cursor.Some? ==> exists k: nat :: VisitedAt(server, s.cursor.value, k)
  }

  lemma VisitedNext(server: Server, q: Query, seen: set<string>, k: nat, t: string)
    requires Visited(server, q, seen, k) && t !in seen && Walk(server, q, k + 1) == Some(Some(t))
    ensures Visited(server, q, seen + {t}, k + 1)
  {
    forall u | u in seen + {t} ensures exists j: nat :: 0 < j <= k + 1 && Walk(server, q, j) == Some(Some(u)) {
      if u in seen {
        var j: nat :| 0 < j <= k && Walk(server, q, j) == Some(Some(u));
        assert 0 < j <= k + 1;
      }
    }
  }

  lemma {:induction false} ReadIsAcyclic(server: Server, q: Query, s: News, token: Option<string>, seen: set<string>,
                                         left: nat, fails: nat -> bool, k: nat)
    requires Acyclic(server, s) && Walk(server, q, k) == Some(token) && Visited(server, q, seen, k)
    ensures Acyclic(server, ReadPages(server, q, s, token, seen, left, fails).0)
    decreases left
  {
    if left > 0 && !fails(left) && server(q, token).Page? {
      var page := server(q, token);
      var (after, ok) := Remember(page.rows, s.remembered);
      if ok && !Finishes(page.next) && !page.next.Junk? && page.next.text !in seen {
        var t := page.next.text;
        assert Walk(server, q, k + 1) == Some(Some(t));
        VisitedNext(server, q, seen, k, t);
        assert VisitedAt(server, Cursor(q, t, seen + {t}), k + 1);
        ReadIsAcyclic(server, q, News(Some(Cursor(q, t, seen + {t})), after), Some(t), seen + {t}, left - 1, fails, k + 1);
      }
    }
  }

  lemma PollIsAcyclic(server: Server, maxPages: nat, s: News, r: Request)
    requires Acyclic(server, s)
    ensures Acyclic(server, Poll(server, maxPages, s, r).0)
  {
    var q := Pinned(s.cursor, r.start, r.end, r.symbols);
    if s.cursor.Some? && q == s.cursor.value.query {
      var c := s.cursor.value;
      var k: nat :| VisitedAt(server, c, k);
      ReadIsAcyclic(server, q, s, Some(c.token), c.seen, maxPages, r.fails, k);
    } else {
      ReadIsAcyclic(server, q, s.(cursor := None), None, {}, maxPages, r.fails, 0);
    }
  }

  // ---- Runs of polls ----

  ghost function RunPolls(server: Server, maxPages: nat, requests: seq<Request>): (News, seq<Outcome>) {
    if requests == [] then (News(None, {}), [])
    else
      var (s, outcomes) := RunPolls(server, maxPages, requests[..|requests| - 1]);
      var (t, o) := Poll(server, maxPages, s, requests[|requests| - 1]);
      (t, outcomes + [o])
  }

  /** However polls fail and resume, the pages read for one pinned interval never repeat: a provider whose
      tokens run in a circle is not followed round it. */
  lemma {:induction false} PagesNeverRepeat(server: Server, maxPages: nat, requests: seq<Request>)
    ensures Acyclic(server, RunPolls(server, maxPages, requests).0)
  {
    if requests != [] {
      var front := requests[..|requests| - 1];
      PagesNeverRepeat(server, maxPages, front);
      PollIsAcyclic(server, maxPages, RunPolls(server, maxPages, front).0, requests[|requests| - 1]);
    }
  }

  lemma CoveredStays(server: Server, q: Query, r: set<Article>, after: set<Article>)
    requires Covered(server, q, r) && r <= after
    ensures Covered(server, q, after)
  {
    var last: nat :| LastPage(server, q, last) && PagesIn(server, q, last + 1, r);
    PagesStay(server, q, last + 1, r, after);
  }

  /** Over any run of polls, with any failures, page bounds and changing requests: every interval ever
      reported complete has all its articles remembered. */
  lemma {:induction false} CoverageIsSound(server: Server, maxPages: nat, requests: seq<Request>)
    ensures var (s, outcomes) := RunPolls(server, maxPages, requests);
      && |outcomes| == |requests| && CursorOk(server, s)
      && forall i :: 0 <= i < |outcomes| && outcomes[i].complete ==>
           SoundClaim(server, requests[i], outcomes[i], s.remembered)
  {
    if requests != [] {
      var n := |requests| - 1;
      CoverageIsSound(server, maxPages, requests[..n]);
      var (s, outcomes) := RunPolls(server, maxPages, requests[..n]);
      PollIsSound(server, maxPages, s, requests[n]);
      var t := Poll(server, maxPages, s, requests[n]).0;
      forall i | 0 <= i < n && outcomes[i].complete ensures SoundClaim(server, requests[i], outcomes[i], t.remembered) {
        assert SoundClaim(server, requests[i], outcomes[i], s.remembered);
        CoveredStays(server, outcomes[i].query, s.remembered, t.remembered);
      }
    }
  }

  // ---- Progress ----

  /** A listing without faults: `last` is its last page, no row is malformed and no token repeats. */
  ghost predicate Clean(server: Server, q: Query, last: nat) {
    && LastPage(server, q, last)
    && (forall j: nat :: j <= last ==> CleanPage(server, q, j))
    && (forall i: nat, j: nat :: i < j <= last ==> Walk(server, q, i) != Walk(server, q, j))
  }

  ghost predicate CleanPage(server: Server, q: Query, j: nat) {
    var token := Walk(server, q, j);
    token.Some? && var reply := server(q, token.value);
    reply.Page? && forall k :: 0 <= k < |reply.rows| ==> reply.rows[k].Good?
  }

  ghost predicate SeenOk(server: Server, q: Query, seen: set<string>, k: nat) {
    forall t :: t in seen ==> exists j: nat :: j <= k && Walk(server, q, j) == Some(Some(t))
  }

  lemma {:induction false} RememberGood(rows: seq<Row>, remembered: set<Article>)
    requires forall k :: 0 <= k < |rows| ==> rows[k].Good?
    ensures Remember(rows, remembered).1
    decreases |rows|
  {
    if rows != [] { RememberGood(rows[1..], remembered + {rows[0].article}); }
  }

  ghost predicate At(server: Server, q: Query, s: News, k: nat) {
    && Walk(server, q, k).Some?
    && (k == 0 ==> s.cursor.None?)
    && (k > 0 ==>
          && s.cursor.Some? && s.cursor.value.query == q && Walk(server, q, k) == Some(Some(s.cursor.value.token))
          && SeenOk(server, q, s.cursor.value.seen, k))
  }

  /** Without failing requests a read either finishes the listing or moves the cursor by its page bound. */
  lemma {:induction false} ReadProgresses(server: Server, q: Query, s: News, token: Option<string>, seen: set<string>,
                                          left: nat, fails: nat -> bool, k: nat, last: nat)
    requires Clean(server, q, last) && k <= last && Walk(server, q, k) == Some(token) && SeenOk(server, q, seen, k)
    requires left == 0 ==> At(server, q, s, k)
    requires forall i: nat :: 0 < i <= left ==> !fails(i)
    ensures var (t, returned) := ReadPages(server, q, s, token, seen, left, fails);
      if last - k < left then returned else !returned && At(server, q, t, k + left)
    decreases left
  {
    if left > 0 {
      assert CleanPage(server, q, k);
      var page := server(q, token);
      RememberGood(page.rows, s.remembered);
      if k < last {
        assert CleanPage(server, q, k + 1);
        var t := page.next.text;
        assert Walk(server, q, k + 1) == Some(Some(t));
        SeenGrows(server, q, seen, k, t);
        var next := News(Some(Cursor(q, t, seen + {t})), Remember(page.rows, s.remembered).0);
        ReadProgresses(server, q, next, Some(t), seen + {t}, left - 1, fails, k + 1, last);
      }
    }
  }

  lemma SeenGrows(server: Server, q: Query, seen: set<string>, k: nat, t: string)
    requires SeenOk(server, q, seen, k) && Walk(server, q, k + 1) == Some(Some(t))
    requires forall j: nat :: j <= k ==> Walk(server, q, j) != Walk(server, q, k + 1)
    ensures t !in seen && SeenOk(server, q, seen + {t}, k + 1)
  {
    forall u | u in seen + {t} ensures exists j: nat :: j <= k + 1 && Walk(server, q, j) == Some(Some(u)) {
      if u in seen {
        var j: nat :| j <= k && Walk(server, q, j) == Some(Some(u));
      }
    }
  }

  ghost predicate Retries(r: Request, q: Query, maxPages: nat) {
    && r.start == q.start && r.symbols == q.symbols && q.end <= r.end
    && Failed !in r.others && q.start < CoverageEnd(q.end, r.others)
    && forall i: nat :: 0 < i <= maxPages ==> !r.fails(i)
  }

  /** The first complete outcome of a series of polls. */
  ghost function FirstComplete(server: Server, maxPages: nat, s: News, requests: seq<Request>): Option<Outcome>
    decreases |requests|
  {
    if requests == [] then None
    else
      var (t, o) := Poll(server, maxPages, s, requests[0]);
      if o.complete then Some(o) else FirstComplete(server, maxPages, t, requests[1..])
  }

  /** However many pages an interval has, as many failure-free polls as its page bound needs finish it,
      although each of them may ask for a later end: the first poll's end stays pinned. */
  lemma {:induction false} RetriesFinish(server: Server, maxPages: nat, s: News, q: Query, requests: seq<Request>,
                                         k: nat, last: nat)
    requires Clean(server, q, last) && k <= last && At(server, q, s, k) && maxPages > 0
    requires forall i :: 0 <= i < |requests| ==> Retries(requests[i], q, maxPages)
    requires k == 0 ==> |requests| > 0 && requests[0].end == q.end
    requires last - k < |requests| * maxPages
    ensures var o := FirstComplete(server, maxPages, s, requests); o.Some? && o.value.query == q
    decreases |requests|
  {
    var r := requests[0];
    assert Retries(r, q, maxPages);
    var token := if k == 0 then None else Some(s.cursor.value.token);
    var seen := if k == 0 then {} else s.cursor.value.seen;
    assert SeenOk(server, q, seen, k);
    ReadProgresses(server, q, s, token, seen, maxPages, r.fails, k, last);
    var t := Poll(server, maxPages, s, r).0;
    if last - k >= maxPages {
      assert |requests| * maxPages == (|requests| - 1) * maxPages + maxPages;
      RetriesFinish(server, maxPages, t, q, requests[1..], k + maxPages, last);
    }
  }

  // ---- The client object ----

  class EventSourceClient {
    const maxPages: nat
    var cursor: Option<Cursor>
    var remembered: set<Article>

    ghost function View(): News reads this { News(cursor, remembered) }

    constructor (maxPages: nat)
      requires 1 <= maxPages <= 20
      ensures View() == News(None, {}) && this.maxPages == maxPages
    {
      this.maxPages, cursor, remembered := maxPages, None, {};
    }

    method RememberRows(rows: seq<Row>) returns (ok: bool)
      modifies this`remembered
      ensures (remembered, ok) == Remember(rows, old(remembered))
    {
      var i := 0;
      while i < |rows|
        invariant i <= |rows| && Remember(rows[i..], remembered) == Remember(rows, old(remembered))
      {
        if rows[i].Malformed? { return false; }
        remembered := remembered + {rows[i].article};
        assert rows[i..][1..] == rows[i + 1..];
        i := i + 1;
      }
      ok := true;
    }

    /** Follows page tokens, moving the cursor only behind pages that were read whole. */
    method ReadNews(server: Server, q: Query, fails: nat -> bool) returns (returned: bool)
      modifies this
      ensures var c := old(cursor);
        (View(), returned) == ReadPages(server, q, old(View()), if c.Some? then Some(c.value.token) else None,
                                        if c.Some? then c.value.seen else {}, maxPages, fails)
    {
      var token: Option<string> := None;
      var seen: set<string> := {};
      if cursor.Some? { token, seen := Some(cursor.value.token), cursor.value.seen; }
      ghost var result := ReadPages(server, q, View(), token, seen, maxPages, fails);
      var left := maxPages;
      while left > 0
        invariant ReadPages(server, q, View(), token, seen, left, fails) == result
      {
        if fails(left) { return false; }
        var reply := server(q, token);
        if reply.Broken? { return false; }
        var ok := RememberRows(reply.rows);
        if !ok { return false; }
        if Finishes(reply.next) {
          cursor := None;
          return true;
        }
        if reply.next.Junk? || reply.next.text in seen {
          cursor := None;
          return false;
        }
        seen := seen + {reply.next.text};
        cursor := Some(Cursor(q, reply.next.text, seen));
        token := Some(reply.next.text);
        left := left - 1;
      }
      returned := false;
    }

    method PollSources(server: Server, r: Request) returns (o: Outcome)
      modifies this
      ensures (View(), o) == Poll(server, maxPages, old(View()), r)
    {
      var q := Pinned(cursor, r.start, r.end, r.symbols);
      if cursor.Some? && q != cursor.value.query { cursor := None; }
      var returned := ReadNews(server, q, r.fails);
      var covered, i := q.end, 0;
      while i < |r.others|
        invariant i <= |r.others| && covered == CoverageEnd(q.end, r.others[..i])
      {
        assert r.others[..i + 1][..i] == r.others[..i];
        if r.others[i].Verified? && r.others[i].at < covered { covered := r.others[i].at; }
        i := i + 1;
      }
      assert r.others[..i] == r.others;
      var complete := returned && Failed !in r.others && covered > r.start;
      o := Outcome(q, complete, if complete then Some(covered) else None);
    }
  }
}
