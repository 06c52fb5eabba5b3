/** The immutable store of source versions: revision chains, and rebuilding it from stored rows. */
module VersionStore {
  import opened Orders

  datatype Key = Key(source: string, id: string, version: string)

  datatype Origin = Origin(source: string, id: string)

  /** Everything about a received version that no later step rewrites. */
  datatype Body = Body(contentHash: string, rawHash: Option<string>, facts: string)

  datatype SourceEvent = SourceEvent(key: Key, receivedAt: int, body: Body, revisionOf: Option<Key>, cluster: string)

  function OriginOf(e: SourceEvent): Origin { Origin(e.key.source, e.key.id) }

  /** The cluster named by an event's economic facts, if it has any. */
  type Semantic = Body -> Option<string>

  datatype Store = Store(versions: map<Key, SourceEvent>, latest: map<Origin, SourceEvent>)

  datatype Remembered = Stored(event: SourceEvent) | Collision

  const EMPTY := Store(map[], map[])

  /** A new version joins the chain of the previous one; a first version may take its facts' cluster. */
  function Link(sem: Semantic, previous: Option<SourceEvent>, e: SourceEvent): SourceEvent {
    if previous.Some? && previous.value.key.version != e.key.version then
      e.(revisionOf := Some(previous.value.key), cluster := previous.value.cluster)
    else if sem(e.body).Some? then e.(cluster := sem(e.body).value)
    else e
  }

  function Previous(s: Store, o: Origin): Option<SourceEvent> {
    if o in s.latest then Some(s.latest[o]) else None
  }

  function Remember(sem: Semantic, s: Store, e: SourceEvent): (Store, Remembered) {
    if e.key in s.versions then
      var existing := s.versions[e.key];
      if existing.body.contentHash != e.body.contentHash || existing.body.rawHash != e.body.rawHash
      then (s, Collision) else (s, Stored(existing))
    else
      var linked := Link(sem, Previous(s, OriginOf(e)), e);
      (Store(s.versions[e.key := linked], s.latest[OriginOf(e) := linked]), Stored(linked))
  }

  /** Observing a version again, with whatever metadata, never changes anything that is stored. */
  lemma ReobservationIsIdle(sem: Semantic, s: Store, e: SourceEvent)
    ensures var (t, r) := Remember(sem, s, e);
      && (forall k :: k in s.versions ==> k in t.versions && t.versions[k] == s.versions[k])
      && (e.key in s.versions ==> t == s)
      && (r.Collision? <==>
            && e.key in s.versions
            && (s.versions[e.key].body.contentHash != e.body.contentHash || s.versions[e.key].body.rawHash != e.body.rawHash))
      && (r.Stored? ==> e.key in t.versions && r.event == t.versions[e.key]
                        && r.event.body.contentHash == e.body.contentHash && r.event.body.rawHash == e.body.rawHash)
  {
  }

  // ---- The store as a log of linked events ----

  function Index(log: seq<SourceEvent>): map<Key, SourceEvent> {
    if log == [] then map[]
    else
      var e := log[|log| - 1];
      Index(log[..|log| - 1])[e.key := e]
  }

  function LatestOf(log: seq<SourceEvent>): map<Origin, SourceEvent> {
    if log == [] then map[]
    else
      var e := log[|log| - 1];
      LatestOf(log[..|log| - 1])[OriginOf(e) := e]
  }

  function Built(log: seq<SourceEvent>): Store { Store(Index(log), LatestOf(log)) }

  /** The versions of one source item, in the order they were stored. */
  function Chain(log: seq<SourceEvent>, o: Origin): seq<SourceEvent> {
    if log == [] then []
    else
      var e := log[|log| - 1];
      Chain(log[..|log| - 1], o) + if OriginOf(e) == o then [e] else []
  }

  ghost predicate DistinctKeys(log: seq<SourceEvent>) {
    forall i, j :: 0 <= i < j < |log| ==> log[i].key != log[j].key
  }

  /** Every version but the first revises its predecessor and shares its cluster. */
  ghost predicate Linear(sem: Semantic, chain: seq<SourceEvent>) {
    && (forall n :: 0 < n < |chain| ==>
          chain[n].revisionOf == Some(chain[n - 1].key) && chain[n].cluster == chain[n - 1].cluster
          && chain[n].key.version != chain[n - 1].key.version)
    && (|chain| > 0 && sem(chain[0].body).Some? ==> chain[0].cluster == sem(chain[0].body).value)
  }

  ghost predicate Linked(sem: Semantic, log: seq<SourceEvent>) {
    DistinctKeys(log) && forall o :: Linear(sem, Chain(log, o))
  }

  /** A log whose first versions revise nothing, as received events do. */
  ghost predicate Rooted(log: seq<SourceEvent>) {
    forall o :: RootedAt(log, o)
  }

  ghost predicate RootedAt(log: seq<SourceEvent>, o: Origin) {
    var chain := Chain(log, o); |chain| > 0 ==> chain[0].revisionOf.None?
  }

  lemma {:induction false} IndexHas(log: seq<SourceEvent>, k: Key)
    ensures k in Index(log) ==> Index(log)[k] in log && Index(log)[k].key == k
    ensures (exists i :: 0 <= i < |log| && log[i].key == k) ==> k in Index(log)
  {
    if log != [] {
      IndexHas(log[..|log| - 1], k);
      if i :| 0 <= i < |log| && log[i].key == k {
        if i < |log| - 1 { assert log[..|log| - 1][i].key == k; }
      }
    }
  }

  lemma IndexIs(log: seq<SourceEvent>, e: SourceEvent)
    requires DistinctKeys(log) && e in log
    ensures e.key in Index(log) && Index(log)[e.key] == e
  {
    IndexHas(log, e.key);
  }

  lemma {:induction false} LatestIsChainEnd(log: seq<SourceEvent>, o: Origin)
    ensures o in LatestOf(log) <==> Chain(log, o) != []
    ensures o in LatestOf(log) ==> LatestOf(log)[o] == Chain(log, o)[|Chain(log, o)| - 1]
  {
    if log != [] { LatestIsChainEnd(log[..|log| - 1], o); }
  }

  lemma {:induction false} ChainHas(log: seq<SourceEvent>, o: Origin, e: SourceEvent)
    ensures e in Chain(log, o) <==> e in log && OriginOf(e) == o
  {
    if log != [] {
      ChainHas(log[..|log| - 1], o, e);
      assert log == log[..|log| - 1] + [log[|log| - 1]];
    }
  }

  lemma ChainAppend(log: seq<SourceEvent>, e: SourceEvent, o: Origin)
    ensures Chain(log + [e], o) == Chain(log, o) + if OriginOf(e) == o then [e] else []
    ensures Index(log + [e]) == Index(log)[e.key := e]
    ensures LatestOf(log + [e]) == LatestOf(log)[OriginOf(e) := e]
  {
    assert (log + [e])[..|log|] == log;
  }

  /** Remembering a new version appends it, linked, to the log. */
  lemma RememberBuilt(sem: Semantic, log: seq<SourceEvent>, e: SourceEvent)
    requires e.key !in Index(log)
    ensures var linked := Link(sem, Previous(Built(log), OriginOf(e)), e);
      Remember(sem, Built(log), e) == (Built(log + [linked]), Stored(linked))
  {
    var linked := Link(sem, Previous(Built(log), OriginOf(e)), e);
    ChainAppend(log, linked, OriginOf(e));
  }

  lemma LinkKeepsLinked(sem: Semantic, log: seq<SourceEvent>, e: SourceEvent)
    requires Linked(sem, log) && e.key !in Index(log)
    ensures Linked(sem, log + [Link(sem, Previous(Built(log), OriginOf(e)), e)])
  {
    var linked := Link(sem, Previous(Built(log), OriginOf(e)), e);
    var all := log + [linked];
    forall i, j | 0 <= i < j < |all| ensures all[i].key != all[j].key {
      if j == |log| { IndexHas(log, e.key); }
    }
    forall o ensures Linear(sem, Chain(all, o)) {
      ChainAppend(log, linked, o);
      if o == OriginOf(e) { LinkExtends(sem, log, e); } else { assert Linear(sem, Chain(log, o)); }
    }
  }

  lemma LinkExtends(sem: Semantic, log: seq<SourceEvent>, e: SourceEvent)
    requires Linked(sem, log) && e.key !in Index(log)
    ensures Linear(sem, Chain(log, OriginOf(e)) + [Link(sem, Previous(Built(log), OriginOf(e)), e)])
  {
    var o := OriginOf(e);
    var chain := Chain(log, o);
    assert Linear(sem, chain);
    LatestIsChainEnd(log, o);
    if chain != [] {
      var last := chain[|chain| - 1];
      ChainHas(log, o, last);
      IndexIs(log, last);
    }
    LinkExtendsChain(sem, chain, e);
  }

  lemma LinkExtendsChain(sem: Semantic, chain: seq<SourceEvent>, e: SourceEvent)
    requires Linear(sem, chain) && (chain != [] ==> chain[|chain| - 1].key.version != e.key.version)
    ensures Linear(sem, chain + [Link(sem, if chain == [] then None else Some(chain[|chain| - 1]), e)])
  {
    var linked := Link(sem, if chain == [] then None else Some(chain[|chain| - 1]), e);
    var all := chain + [linked];
    forall n | 0 < n < |all|
      ensures all[n].revisionOf == Some(all[n - 1].key) && all[n].cluster == all[n - 1].cluster
      ensures all[n].key.version != all[n - 1].key.version
    {
      if n < |chain| { assert chain[n].revisionOf == Some(chain[n - 1].key); }
    }
  }

  // ---- Runs ----

  /** The stored log after a client has received these events, dropping those already known. */
  function LogAfter(sem: Semantic, received: seq<SourceEvent>): seq<SourceEvent> {
    if received == [] then []
    else
      var log := LogAfter(sem, received[..|received| - 1]);
      var e := received[|received| - 1];
      if e.key in Index(log) then log else log + [Link(sem, Previous(Built(log), OriginOf(e)), e)]
  }

  function StoreAfter(sem: Semantic, received: seq<SourceEvent>): Store {
    if received == [] then EMPTY
    else Remember(sem, StoreAfter(sem, received[..|received| - 1]), received[|received| - 1]).0
  }

  /** After any receipts the versions of each item form one linear chain with one cluster, the latest
      map names its end, and nothing else is stored. */
  lemma {:induction false} ChainsAreLinear(sem: Semantic, received: seq<SourceEvent>)
    requires forall e :: e in received ==> e.revisionOf.None?
    ensures var log := LogAfter(sem, received);
      StoreAfter(sem, received) == Built(log) && Linked(sem, log) && Rooted(log)
  {
    if received == [] {
      assert forall o :: RootedAt([], o);
    } else {
      var front, e := received[..|received| - 1], received[|received| - 1];
      ChainsAreLinear(sem, front);
      var log := LogAfter(sem, front);
      if e.key !in Index(log) {
        RememberBuilt(sem, log, e);
        LinkKeepsLinked(sem, log, e);
        assert e in received;
        LinkKeepsRooted(sem, log, e);
      }
    }
  }

  lemma LinkKeepsRooted(sem: Semantic, log: seq<SourceEvent>, e: SourceEvent)
    requires Linked(sem, log) && Rooted(log) && e.key !in Index(log) && e.revisionOf.None?
    ensures Rooted(log + [Link(sem, Previous(Built(log), OriginOf(e)), e)])
  {
    var linked := Link(sem, Previous(Built(log), OriginOf(e)), e);
    forall o ensures RootedAt(log + [linked], o) {
      assert RootedAt(log, o);
      ChainAppend(log, linked, o);
      LatestIsChainEnd(log, o);
    }
  }

  // ---- Seeding a fresh client ----

  function InsertByReceipt(sorted: seq<SourceEvent>, e: SourceEvent): seq<SourceEvent> {
    if sorted == [] || sorted[|sorted| - 1].receivedAt <= e.receivedAt then sorted + [e]
    else InsertByReceipt(sorted[..|sorted| - 1], e) + [sorted[|sorted| - 1]]
  }

  /** The stable sort by first receipt. */
  function SortByReceipt(rows: seq<SourceEvent>): seq<SourceEvent> {
    if rows == [] then [] else InsertByReceipt(SortByReceipt(rows[..|rows| - 1]), rows[|rows| - 1])
  }

  /** A fresh client seeded with stored rows, in whatever order the database returned them. */
  function Seeded(sem: Semantic, rows: seq<SourceEvent>): Store { StoreAfter(sem, SortByReceipt(rows)) }

  ghost predicate SameChains(a: seq<SourceEvent>, b: seq<SourceEvent>) { forall o :: Chain(a, o) == Chain(b, o) }

  /** Seeds with distinct keys are all stored, each under its own key. */
  lemma {:induction false} SeedsAllStored(sem: Semantic, seeds: seq<SourceEvent>)
    requires DistinctKeys(seeds)
    ensures var log := LogAfter(sem, seeds);
      && |log| == |seeds| && DistinctKeys(log) && StoreAfter(sem, seeds) == Built(log)
      && (forall k :: 0 <= k < |seeds| ==> log[k].key == seeds[k].key)
  {
    if seeds != [] {
      var n := |seeds| - 1;
      var log := LogAfter(sem, seeds[..n]);
      SeedsAllStored(sem, seeds[..n]);
      IndexHas(log, seeds[n].key);
      assert seeds[n].key !in Index(log);
      RememberBuilt(sem, log, seeds[n]);
    }
  }

  lemma {:induction false} LogIsLinked(sem: Semantic, received: seq<SourceEvent>)
    ensures Linked(sem, LogAfter(sem, received))
  {
    if received != [] {
      var front, e := received[..|received| - 1], received[|received| - 1];
      LogIsLinked(sem, front);
      if e.key !in Index(LogAfter(sem, front)) { LinkKeepsLinked(sem, LogAfter(sem, front), e); }
    }
  }

  lemma {:induction false} ChainPrefix(log: seq<SourceEvent>, n: nat, o: Origin)
    requires n <= |log|
    ensures Chain(log[..n], o) <= Chain(log, o)
    ensures n < |log| && OriginOf(log[n]) == o ==>
      |Chain(log[..n], o)| < |Chain(log, o)| && Chain(log, o)[|Chain(log[..n], o)|] == log[n]
    decreases |log|
  {
    if n < |log| {
      var front := log[..|log| - 1];
      assert front[..n] == log[..n];
      ChainPrefix(front, n, o);
    } else {
      assert log[..n] == log;
    }
  }

  /** Relinking a version behind its own predecessor reproduces it. */
  lemma RelinkIsIdle(sem: Semantic, chain: seq<SourceEvent>, n: nat)
    requires Linear(sem, chain) && n < |chain|
    ensures Link(sem, if n == 0 then None else Some(chain[n - 1]), chain[n]) == chain[n]
  {
  }

  lemma {:induction false} SeedsReproduced(sem: Semantic, log: seq<SourceEvent>, seeds: seq<SourceEvent>, n: nat)
    requires Linked(sem, log) && SameChains(seeds, log) && DistinctKeys(seeds) && n <= |seeds|
    ensures LogAfter(sem, seeds[..n]) == seeds[..n]
    decreases n
  {
    if n > 0 {
      var front, e := seeds[..n - 1], seeds[n - 1];
      assert seeds[..n][..n - 1] == front;
      SeedsReproduced(sem, log, seeds, n - 1);
      IndexHas(front, e.key);
      var o := OriginOf(e);
      ChainPrefix(seeds, n - 1, o);
      LatestIsChainEnd(front, o);
      assert Chain(seeds, o) == Chain(log, o) && Linear(sem, Chain(log, o));
      RelinkIsIdle(sem, Chain(log, o), |Chain(front, o)|);
    }
  }

  lemma SameChainsSameStore(a: seq<SourceEvent>, b: seq<SourceEvent>)
    requires DistinctKeys(a) && DistinctKeys(b) && SameChains(a, b)
    ensures Built(a) == Built(b)
  {
    forall e: SourceEvent ensures e in a <==> e in b {
      ChainHas(a, OriginOf(e), e);
      ChainHas(b, OriginOf(e), e);
      assert Chain(a, OriginOf(e)) == Chain(b, OriginOf(e));
    }
    forall k: Key ensures k in Index(a) <==> k in Index(b)
      ensures k in Index(a) ==> Index(a)[k] == Index(b)[k]
    {
      IndexHas(a, k);
      IndexHas(b, k);
      if k in Index(a) { IndexIs(b, Index(a)[k]); }
      if k in Index(b) { IndexIs(a, Index(b)[k]); }
    }
    forall o: Origin ensures o in LatestOf(a) <==> o in LatestOf(b)
      ensures o in LatestOf(a) ==> LatestOf(a)[o] == LatestOf(b)[o]
    {
      LatestIsChainEnd(a, o);
      LatestIsChainEnd(b, o);
      assert Chain(a, o) == Chain(b, o);
    }
    assert Index(a) == Index(b) && LatestOf(a) == LatestOf(b);
  }

  lemma LaterRevises(sem: Semantic, chain: seq<SourceEvent>, i: nat)
    requires Linear(sem, chain) && 0 < i < |chain|
    ensures chain[i].revisionOf.Some?
  {
    assert chain[i].revisionOf == Some(chain[i - 1].key);
  }

  /** Two arrangements of the same versions that are both linear, one of them from its root, agree. */
  lemma {:induction false} LinearIsUnique(sem: Semantic, a: seq<SourceEvent>, b: seq<SourceEvent>, n: nat)
    requires Linear(sem, a) && Linear(sem, b) && DistinctKeys(a) && DistinctKeys(b)
    requires (forall e :: e in a <==> e in b) && (|b| > 0 ==> b[0].revisionOf.None?)
    ensures n <= |b| ==> n <= |a| && a[..n] == b[..n]
    decreases n
  {
    if 0 < n <= |b| {
      LinearIsUnique(sem, a, b, n - 1);
      var e := b[n - 1];
      assert e in a;
      var i :| 0 <= i < |a| && a[i] == e;
      if n == 1 {
        if i > 0 {
          LaterRevises(sem, a, i);
          assert false;
        }
      } else {
        assert a[0] == b[0] by { assert a[..n - 1][0] == b[..n - 1][0]; }
        assert b[n - 1].revisionOf == Some(b[n - 2].key);
        assert i > 0;
        assert a[i].revisionOf == Some(a[i - 1].key);
        assert a[n - 2] == b[n - 2] by { assert a[..n - 1][n - 2] == b[..n - 1][n - 2]; }
        assert a[i - 1].key == a[n - 2].key;
        assert i - 1 == n - 2;
      }
    }
  }

  lemma {:induction false} ChainDistinct(log: seq<SourceEvent>, o: Origin)
    requires DistinctKeys(log)
    ensures DistinctKeys(Chain(log, o))
  {
    if log != [] {
      var front, e := log[..|log| - 1], log[|log| - 1];
      ChainDistinct(front, o);
      forall i | 0 <= i < |Chain(front, o)| ensures Chain(front, o)[i].key != e.key {
        ChainHas(front, o, Chain(front, o)[i]);
      }
    }
  }

  lemma StoredAsGiven(sem: Semantic, log: seq<SourceEvent>, seeds: seq<SourceEvent>)
    requires DistinctKeys(log) && DistinctKeys(seeds) && (forall e :: e in seeds ==> e in log)
    requires StoreAfter(sem, seeds) == Built(log)
    ensures LogAfter(sem, seeds) == seeds
  {
    SeedsAllStored(sem, seeds);
    var got := LogAfter(sem, seeds);
    forall k | 0 <= k < |seeds| ensures got[k] == seeds[k] {
      IndexIs(got, got[k]);
      IndexIs(log, seeds[k]);
    }
  }

  /** Seeding a fresh client with exactly the stored versions rebuilds the same versions and latest maps
      if and only if the seeds list every chain in chain order. */
  lemma RestoreExactly(sem: Semantic, log: seq<SourceEvent>, seeds: seq<SourceEvent>)
    requires Linked(sem, log) && Rooted(log) && DistinctKeys(seeds) && (forall e :: e in seeds <==> e in log)
    ensures StoreAfter(sem, seeds) == Built(log) <==> SameChains(seeds, log)
  {
    if SameChains(seeds, log) {
      SeedsReproduced(sem, log, seeds, |seeds|);
      assert seeds[..|seeds|] == seeds;
      SeedsAllStored(sem, seeds);
      SameChainsSameStore(seeds, log);
    }
    if StoreAfter(sem, seeds) == Built(log) {
      StoredAsGiven(sem, log, seeds);
      LogIsLinked(sem, seeds);
      forall o ensures Chain(seeds, o) == Chain(log, o) { ChainsAgree(sem, log, seeds, o); }
    }
  }

  lemma ChainsAgree(sem: Semantic, log: seq<SourceEvent>, seeds: seq<SourceEvent>, o: Origin)
    requires Linked(sem, log) && Rooted(log) && Linked(sem, seeds) && (forall e :: e in seeds <==> e in log)
    ensures Chain(seeds, o) == Chain(log, o)
  {
    var a, b := Chain(seeds, o), Chain(log, o);
    assert Linear(sem, a) && Linear(sem, b) && RootedAt(log, o);
    ChainDistinct(seeds, o);
    ChainDistinct(log, o);
    forall e ensures e in a <==> e in b {
      ChainHas(seeds, o, e);
      ChainHas(log, o, e);
    }
    LinearIsUnique(sem, a, b, |b|);
    PrefixIsWhole(a, b);
  }

  // ---- When the receipt order is enough ----

  lemma AppendSorted(s: seq<SourceEvent>, e: SourceEvent)
    requires ByReceipt(s) && forall x :: x in s ==> x.receivedAt <= e.receivedAt
    ensures ByReceipt(s + [e])
  {
  }

  lemma {:induction false} InsertSorts(sorted: seq<SourceEvent>, e: SourceEvent)
    requires ByReceipt(sorted)
    ensures var s := InsertByReceipt(sorted, e); ByReceipt(s) && multiset(s) == multiset(sorted) + multiset{e}
    ensures forall x :: x in InsertByReceipt(sorted, e) ==> x in sorted || x == e
    decreases |sorted|
  {
    if sorted == [] || sorted[|sorted| - 1].receivedAt <= e.receivedAt {
      AppendSorted(sorted, e);
    } else {
      var front, last := sorted[..|sorted| - 1], sorted[|sorted| - 1];
      InsertSorts(front, e);
      assert sorted == front + [last];
      AppendSorted(InsertByReceipt(front, e), last);
    }
  }

  ghost predicate ByReceipt(s: seq<SourceEvent>) { forall i, j :: 0 <= i < j < |s| ==> s[i].receivedAt <= s[j].receivedAt }

  ghost predicate StrictReceipts(s: seq<SourceEvent>) { forall i, j :: 0 <= i < j < |s| ==> s[i].receivedAt < s[j].receivedAt }

  lemma {:induction false} SortSorts(rows: seq<SourceEvent>)
    ensures ByReceipt(SortByReceipt(rows)) && multiset(SortByReceipt(rows)) == multiset(rows)
  {
    if rows != [] {
      SortSorts(rows[..|rows| - 1]);
      InsertSorts(SortByReceipt(rows[..|rows| - 1]), rows[|rows| - 1]);
      assert rows == rows[..|rows| - 1] + [rows[|rows| - 1]];
    }
  }

  lemma {:induction false} ChainSorted(s: seq<SourceEvent>, o: Origin)
    requires ByReceipt(s)
    ensures ByReceipt(Chain(s, o))
  {
    if s != [] {
      var front := s[..|s| - 1];
      ChainSorted(front, o);
      forall i | 0 <= i < |Chain(front, o)| ensures Chain(front, o)[i].receivedAt <= s[|s| - 1].receivedAt {
        ChainHas(front, o, Chain(front, o)[i]);
      }
    }
  }

  /** A sorted arrangement of strictly ordered elements is that arrangement. */
  lemma {:induction false} SortedIsUnique(a: seq<SourceEvent>, b: seq<SourceEvent>, n: nat)
    requires ByReceipt(a) && StrictReceipts(b) && DistinctKeys(a) && (forall e :: e in a <==> e in b) && n <= |b|
    ensures n <= |a| && a[..n] == b[..n]
    decreases n
  {
    if n > 0 {
      SortedIsUnique(a, b, n - 1);
      var e := b[n - 1];
      assert e in a;
      var i :| 0 <= i < |a| && a[i] == e;
      forall k | 0 <= k < n - 1 ensures a[k].receivedAt < e.receivedAt && a[k] == b[k] {
        assert a[..n - 1][k] == b[..n - 1][k];
      }
      assert i >= n - 1;
      var x := a[n - 1];
      forall k | 0 <= k < n - 1 ensures b[k].key != x.key { assert a[k].key != a[n - 1].key; }
      assert x in b;
      var j :| 0 <= j < |b| && b[j] == x;
    }
  }

  lemma SortedChainsAgree(seeds: seq<SourceEvent>, log: seq<SourceEvent>, o: Origin)
    requires ByReceipt(seeds) && DistinctKeys(seeds) && DistinctKeys(log) && (forall e :: e in seeds <==> e in log)
    requires StrictReceipts(Chain(log, o))
    ensures Chain(seeds, o) == Chain(log, o)
  {
    var a, b := Chain(seeds, o), Chain(log, o);
    ChainSorted(seeds, o);
    ChainDistinct(seeds, o);
    forall e ensures e in a <==> e in b {
      ChainHas(seeds, o, e);
      ChainHas(log, o, e);
    }
    SortedIsUnique(a, b, |b|);
    PrefixIsWhole(a, b);
  }

  lemma BehindPrefixIsNew(a: seq<SourceEvent>, b: seq<SourceEvent>)
    requires |b| < |a| && a[..|b|] == b[..|b|] && DistinctKeys(a)
    ensures a[|b|] in a && a[|b|] !in b
  {
    forall j | 0 <= j < |b| ensures b[j].key != a[|b|].key { assert a[..|b|][j] == b[..|b|][j]; }
  }

  /** Nothing can follow a prefix that already contains every element. */
  lemma PrefixIsWhole(a: seq<SourceEvent>, b: seq<SourceEvent>)
    requires |b| <= |a| && a[..|b|] == b[..|b|] && DistinctKeys(a) && forall e :: e in a ==> e in b
    ensures a == b
  {
    if |a| > |b| {
      BehindPrefixIsNew(a, b);
      assert false;
    }
  }

  /** Seeding from the stored rows restores the store exactly when sorting them by receipt lists every
      chain in chain order. */
  lemma SeedingRestores(sem: Semantic, log: seq<SourceEvent>, rows: seq<SourceEvent>)
    requires Linked(sem, log) && Rooted(log) && multiset(rows) == multiset(log)
    ensures Seeded(sem, rows) == Built(log) <==> SameChains(SortByReceipt(rows), log)
  {
    SortSorts(rows);
    SameMultiset(SortByReceipt(rows), log);
    RestoreExactly(sem, log, SortByReceipt(rows));
  }

  /** When receipts strictly increase along every chain, any row order restores the store. */
  lemma StrictReceiptsRestore(sem: Semantic, log: seq<SourceEvent>, rows: seq<SourceEvent>)
    requires Linked(sem, log) && Rooted(log) && multiset(rows) == multiset(log)
    requires forall o :: StrictReceipts(Chain(log, o))
    ensures Seeded(sem, rows) == Built(log)
  {
    SortSorts(rows);
    var seeds := SortByReceipt(rows);
    SameMultiset(seeds, log);
    forall o ensures Chain(seeds, o) == Chain(log, o) { SortedChainsAgree(seeds, log, o); }
    SeedingRestores(sem, log, rows);
  }

  lemma {:induction false} InsertChain(s: seq<SourceEvent>, e: SourceEvent, o: Origin)
    requires OriginOf(e) == o ==> forall x :: x in Chain(s, o) ==> x.receivedAt <= e.receivedAt
    ensures Chain(InsertByReceipt(s, e), o) == Chain(s, o) + if OriginOf(e) == o then [e] else []
    decreases |s|
  {
    if s == [] || s[|s| - 1].receivedAt <= e.receivedAt {
      ChainAppend(s, e, o);
    } else {
      var front, last := s[..|s| - 1], s[|s| - 1];
      assert s == front + [last];
      ChainAppend(front, last, o);
      assert OriginOf(last) == o ==> Chain(s, o)[|Chain(s, o)| - 1] == last;
      forall x | x in Chain(front, o) ensures x in Chain(s, o) {}
      InsertChain(front, e, o);
      ChainAppend(InsertByReceipt(front, e), last, o);
    }
  }

  lemma {:induction false} SortKeepsChain(rows: seq<SourceEvent>, o: Origin)
    requires ByReceipt(Chain(rows, o))
    ensures Chain(SortByReceipt(rows), o) == Chain(rows, o)
  {
    if rows != [] {
      var front, e := rows[..|rows| - 1], rows[|rows| - 1];
      assert ByReceipt(Chain(front, o)) by {
        forall i, j | 0 <= i < j < |Chain(front, o)| ensures Chain(front, o)[i].receivedAt <= Chain(front, o)[j].receivedAt {
          assert Chain(rows, o)[i] == Chain(front, o)[i] && Chain(rows, o)[j] == Chain(front, o)[j];
        }
      }
      SortKeepsChain(front, o);
      if OriginOf(e) == o {
        forall x | x in Chain(front, o) ensures x.receivedAt <= e.receivedAt {
          var i :| 0 <= i < |Chain(front, o)| && Chain(front, o)[i] == x;
          assert Chain(rows, o)[i] == x && Chain(rows, o)[|Chain(front, o)|] == e;
        }
      }
      InsertChain(SortByReceipt(front), e, o);
    }
  }

  /** With receipts that only never decrease along a chain, rows listed in chain order are still enough. */
  lemma OrderedRowsRestore(sem: Semantic, log: seq<SourceEvent>, rows: seq<SourceEvent>)
    requires Linked(sem, log) && Rooted(log) && multiset(rows) == multiset(log)
    requires SameChains(rows, log) && forall o :: ByReceipt(Chain(log, o))
    ensures Seeded(sem, rows) == Built(log)
  {
    forall o ensures Chain(SortByReceipt(rows), o) == Chain(log, o) {
      assert Chain(rows, o) == Chain(log, o);
      SortKeepsChain(rows, o);
    }
    SeedingRestores(sem, log, rows);
  }

  lemma SameMultiset(a: seq<SourceEvent>, b: seq<SourceEvent>)
    requires multiset(a) == multiset(b) && DistinctKeys(b)
    ensures DistinctKeys(a) && forall e :: e in a <==> e in b
  {
    forall e: SourceEvent ensures e in a <==> e in b {
      assert e in a <==> e in multiset(a);
      assert e in b <==> e in multiset(b);
    }
    forall i, j | 0 <= i < j < |a| ensures a[i].key != a[j].key {
      if a[i].key == a[j].key {
        assert a[i] in b && a[j] in b;
        assert a[i] == a[j];
        TwiceCounted(a, i, j);
        OnceCounted(b, a[i]);
      }
    }
  }

  lemma {:induction false} TwiceCounted(a: seq<SourceEvent>, i: nat, j: nat)
    requires i < j < |a| && a[i] == a[j]
    ensures multiset(a)[a[i]] >= 2
  {
    assert a == a[..j] + [a[j]] + a[j + 1..];
    assert a[..j][i] == a[i];
    assert a[i] in multiset(a[..j]);
  }

  lemma {:induction false} OnceCounted(b: seq<SourceEvent>, e: SourceEvent)
    requires DistinctKeys(b)
    ensures multiset(b)[e] <= 1
  {
    if b != [] {
      var front, last := b[..|b| - 1], b[|b| - 1];
      OnceCounted(front, e);
      assert b == front + [last];
      if last == e {
        forall i | 0 <= i < |front| ensures front[i].key != e.key { assert b[i].key != b[|b| - 1].key; }
        assert e !in multiset(front);
      }
    }
  }

  const FIRST := SourceEvent(Key("s", "i", "1"), 5, Body("", None, ""), None, "c")

  const SECOND := FIRST.(key := Key("s", "i", "2"))

  lemma TwoInOrder(sem: Semantic, a: SourceEvent, b: SourceEvent)
    requires OriginOf(a) == OriginOf(b) && a.key.version != b.key.version && sem(a.body).None?
    ensures var linked := b.(revisionOf := Some(a.key), cluster := a.cluster);
      && LogAfter(sem, [a, b]) == [a, linked]
      && StoreAfter(sem, [a, b]) == Store(map[a.key := a, b.key := linked], map[OriginOf(a) := linked])
  {
    assert [a, b][..1] == [a] && [a][..0] == [];
    assert LogAfter(sem, [a]) == [a];
    assert StoreAfter(sem, [a]) == Store(map[a.key := a], map[OriginOf(a) := a]);
    assert Built([a]) == Store(map[a.key := a], map[OriginOf(a) := a]);
  }

  lemma TiesStay(a: SourceEvent, b: SourceEvent)
    requires a.receivedAt == b.receivedAt
    ensures SortByReceipt([a, b]) == [a, b]
  {
    assert [a, b][..1] == [a] && [a][..0] == [];
    assert SortByReceipt([a]) == [a];
  }

  /** With equal receipts the order of the rows decides: this stored chain of two versions comes back
      with its first version revising its second. */
  lemma EqualReceiptsCanReverse(sem: Semantic)
    requires sem(FIRST.body).None?
    ensures var log := LogAfter(sem, [FIRST, SECOND]);
      && |log| == 2
      && var stored, seeded := StoreAfter(sem, [FIRST, SECOND]), Seeded(sem, [log[1], log[0]]);
      && FIRST.key in stored.versions && stored.versions[FIRST.key].revisionOf.None?
      && FIRST.key in seeded.versions && seeded.versions[FIRST.key].revisionOf == Some(SECOND.key)
  {
    TwoInOrder(sem, FIRST, SECOND);
    var linked := SECOND.(revisionOf := Some(FIRST.key), cluster := FIRST.cluster);
    TiesStay(linked, FIRST);
    TwoInOrder(sem, linked, FIRST);
  }

  // ---- The client object ----

  class VersionClient {
    const sem: Semantic
    var versions: map<Key, SourceEvent>
    var latest: map<Origin, SourceEvent>

    ghost function View(): Store reads this { Store(versions, latest) }

    /** Remembers the sorted seeds one after another. */
    constructor (sem: Semantic, rows: seq<SourceEvent>)
      requires DistinctKeys(rows)  // the primary key of the evidence table
      ensures this.sem == sem && View() == Seeded(sem, rows)
    {
      this.sem, versions, latest := sem, map[], map[];
      new;
      var seeds, i := SortByReceipt(rows), 0;
      while i < |seeds|
        invariant i <= |seeds| && View() == StoreAfter(sem, seeds[..i])
        invariant fresh(this)
      {
        assert seeds[..i + 1][..i] == seeds[..i];
        var r := RememberEvent(seeds[i]);
        i := i + 1;
      }
      assert seeds[..i] == seeds;
    }

    method RememberEvent(received: SourceEvent) returns (r: Remembered)
      modifies this
      ensures (View(), r) == Remember(sem, old(View()), received)
    {
      var event := received;
      if event.key in versions {
        var existing := versions[event.key];
        if existing.body.contentHash != event.body.contentHash || existing.body.rawHash != event.body.rawHash {
          return Collision;
        }
        return Stored(existing);
      }
      if sem(event.body).Some? { event := event.(cluster := sem(event.body).value); }
      var o := OriginOf(event);
      if o in latest && latest[o].key.version != event.key.version {
        event := event.(revisionOf := Some(latest[o].key), cluster := latest[o].cluster);
      }
      versions := versions[event.key := event];
      latest := latest[o := event];
      r := Stored(event);
    }
  }
}
