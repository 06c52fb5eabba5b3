/** The bounded response cache: recency order, byte accounting, eviction and revalidation. */
module HttpCache {
  import opened Orders

  type Bytes = seq<int>

  datatype Entry = Entry(key: string, tick: int, body: Bytes, firstReceived: int)

  datatype Limits = Limits(maxBytes: nat, maxEntries: nat, ttl: int)

  ghost predicate LimitsOk(l: Limits) { l.maxBytes >= 1 && l.maxEntries >= 1 }

  /** Entries from the least to the most recently used, when each was last verified, and how many were
      evicted so far. */
  datatype Cache = Cache(entries: seq<Entry>, verified: map<string, int>, evictions: nat)

  const EMPTY := Cache([], map[], 0)

  function Size(entries: seq<Entry>): nat {
    if entries == [] then 0 else |entries[0].body| + Size(entries[1..])
  }

  function Find(entries: seq<Entry>, key: string): Option<Entry> {
    if entries == [] then None else if entries[0].key == key then Some(entries[0]) else Find(entries[1..], key)
  }

  function Without(entries: seq<Entry>, key: string): seq<Entry> {
    if entries == [] then []
    else (if entries[0].key == key then [] else [entries[0]]) + Without(entries[1..], key)
  }

  predicate Fits(l: Limits, entries: seq<Entry>, size: nat) {
    entries == [] || (|entries| < l.maxEntries && Size(entries) + size <= l.maxBytes)
  }

  /** How many of the oldest entries must go before one of the given size fits. */
  function Surplus(l: Limits, entries: seq<Entry>, size: nat): (n: nat)
    ensures n <= |entries|
  {
    if Fits(l, entries, size) then 0 else 1 + Surplus(l, entries[1..], size)
  }

  function Put(l: Limits, c: Cache, e: Entry, verifiedAt: int): Cache {
    var rest := Without(c.entries, e.key);
    if |e.body| > l.maxBytes then Cache(rest, c.verified - {e.key}, c.evictions)
    else
      var n := Surplus(l, rest, |e.body|);
      Cache(rest[n..] + [e], (c.verified - {e.key} - Keys(rest[..n]))[e.key := verifiedAt], c.evictions + n)
  }

  function Keys(entries: seq<Entry>): set<string> { set i | 0 <= i < |entries| :: entries[i].key }

  datatype Answer = Refused | NotModified | Okay(body: Bytes)

  /** One request: its time, the monotonic and wall times of its answer, and the answer itself. */
  datatype Call = Call(key: string, tick: int, later: int, received: int, answer: Answer)

  function Touch(c: Cache, e: Entry): Cache { c.(entries := Without(c.entries, e.key) + [e]) }

  function Request(l: Limits, c: Cache, r: Call): (Cache, Option<(Bytes, int)>) {
    match Find(c.entries, r.key)
    case Some(e) =>
      var touched := Touch(c, e);
      if r.tick - e.tick < l.ttl then (touched, Some((e.body, e.firstReceived)))
      else (match r.answer
            case Refused => (touched, None)
            case NotModified =>
              (Put(l, touched, Entry(r.key, r.later, e.body, e.firstReceived), r.received), Some((e.body, e.firstReceived)))
            case Okay(body) => (Put(l, touched, Entry(r.key, r.later, body, r.received), r.received), Some((body, r.received))))
    case None =>
      if r.answer.Okay? then
        (Put(l, c, Entry(r.key, r.later, r.answer.body, r.received), r.received), Some((r.answer.body, r.received)))
      else (c, None)
  }

  // ---- The recency list ----

  ghost predicate Distinct(entries: seq<Entry>) { forall i, j :: 0 <= i < j < |entries| ==> entries[i].key != entries[j].key }

  /** Both bounds hold, keys are distinct, and exactly the cached keys have a verification time. */
  ghost predicate Bounded(l: Limits, c: Cache) {
    && Distinct(c.entries) && |c.entries| <= l.maxEntries && Size(c.entries) <= l.maxBytes
    && c.verified.Keys == Keys(c.entries)
  }

  lemma {:induction false} SizeSplits(a: seq<Entry>, b: seq<Entry>)
    ensures Size(a + b) == Size(a) + Size(b)
  {
    if a == [] { assert a + b == b; } else {
      SizeSplits(a[1..], b);
      assert (a + b)[1..] == a[1..] + b;
    }
  }

  /** Removing a key splits the entries at its only position. */
  lemma {:induction false} WithoutIs(entries: seq<Entry>, key: string) returns (i: nat)
    requires Distinct(entries)
    ensures match Find(entries, key)
      case None => Without(entries, key) == entries && key !in Keys(entries)
      case Some(e) => i < |entries| && entries[i] == e && e.key == key && Without(entries, key) == entries[..i] + entries[i + 1..]
    decreases |entries|
  {
    i := 0;
    if entries != [] {
      var rest := entries[1..];
      if entries[0].key == key {
        forall j | 0 <= j < |rest| ensures rest[j].key != key { assert entries[0].key != entries[j + 1].key; }
        NothingRemoved(rest, key);
      } else {
        var k := WithoutIs(rest, key);
        if Find(rest, key).Some? {
          i := k + 1;
          assert entries[..i] == [entries[0]] + rest[..k];
          assert entries[i + 1..] == rest[k + 1..];
        } else {
          forall j | 0 <= j < |entries| ensures entries[j].key != key {
            if j > 0 { assert rest[j - 1].key in Keys(rest); }
          }
        }
      }
    }
  }

  lemma {:induction false} NothingRemoved(entries: seq<Entry>, key: string)
    requires forall j :: 0 <= j < |entries| ==> entries[j].key != key
    ensures Without(entries, key) == entries
    decreases |entries|
  {
    if entries != [] { NothingRemoved(entries[1..], key); }
  }

  lemma SizeOfCut(entries: seq<Entry>, i: nat)
    requires i < |entries|
    ensures Size(entries) == Size(entries[..i] + entries[i + 1..]) + |entries[i].body|
  {
    SizeSplits(entries[..i], entries[i..]);
    SizeSplits(entries[..i], entries[i + 1..]);
    assert entries == entries[..i] + entries[i..] && entries[i..][1..] == entries[i + 1..];
  }

  /** What is left after a key is removed: the others in the same order, no longer and no bigger. */
  lemma WithoutKeeps(entries: seq<Entry>, key: string)
    requires Distinct(entries)
    ensures var rest := Without(entries, key);
      && Distinct(rest) && |rest| <= |entries| && Keys(rest) == Keys(entries) - {key}
      && Size(entries) == Size(rest) + (if Find(entries, key).Some? then |Find(entries, key).value.body| else 0)
      && (Find(entries, key).Some? ==> |rest| == |entries| - 1)
  {
    var i := WithoutIs(entries, key);
    if Find(entries, key).Some? {
      SizeOfCut(entries, i);
      KeysOfCut(entries, i);
    }
  }

  lemma KeysOfCut(entries: seq<Entry>, i: nat)
    requires Distinct(entries) && i < |entries|
    ensures Keys(entries[..i] + entries[i + 1..]) == Keys(entries) - {entries[i].key}
  {
    var rest := entries[..i] + entries[i + 1..];
    forall k | k in Keys(entries) && k != entries[i].key ensures k in Keys(rest) {
      var j :| 0 <= j < |entries| && entries[j].key == k;
      if j < i { assert rest[j].key == k; } else { assert rest[j - 1].key == k; }
    }
    forall k | k in Keys(rest) ensures k in Keys(entries) && k != entries[i].key {
      var j :| 0 <= j < |rest| && rest[j].key == k;
      if j < i { assert entries[j].key == k; } else { assert entries[j + 1].key == k; }
    }
  }

  /** Eviction takes the shortest run of oldest entries that makes room. */
  lemma {:induction false} SurplusIsLeast(l: Limits, entries: seq<Entry>, size: nat)
    ensures var n := Surplus(l, entries, size);
      Fits(l, entries[n..], size) && forall m :: 0 <= m < n ==> !Fits(l, entries[m..], size)
    decreases |entries|
  {
    if !Fits(l, entries, size) {
      SurplusIsLeast(l, entries[1..], size);
      var n := Surplus(l, entries, size);
      assert entries[n..] == entries[1..][n - 1..];
      forall m | 0 <= m < n ensures !Fits(l, entries[m..], size) {
        if m == 0 { assert entries[0..] == entries; } else { assert entries[m..] == entries[1..][m - 1..]; }
      }
    } else {
      assert entries[0..] == entries;
    }
  }

  lemma KeysSplit(entries: seq<Entry>, n: nat)
    requires Distinct(entries) && n <= |entries|
    ensures Distinct(entries[n..]) && Keys(entries[n..]) == Keys(entries) - Keys(entries[..n])
  {
    forall k | k in Keys(entries[n..]) ensures k in Keys(entries) && k !in Keys(entries[..n]) {
      var j :| 0 <= j < |entries[n..]| && entries[n..][j].key == k;
      assert entries[n + j].key == k;
    }
    forall j | 0 <= j < n ensures entries[j].key in Keys(entries[..n]) { assert entries[..n][j] == entries[j]; }
    forall k | k in Keys(entries) && k !in Keys(entries[..n]) ensures k in Keys(entries[n..]) {
      var j :| 0 <= j < |entries| && entries[j].key == k;
      assert entries[n..][j - n].key == k;
    }
  }

  lemma AppendKeys(entries: seq<Entry>, e: Entry)
    requires Distinct(entries) && e.key !in Keys(entries)
    ensures Distinct(entries + [e]) && Keys(entries + [e]) == Keys(entries) + {e.key}
    ensures Size(entries + [e]) == Size(entries) + |e.body|
  {
    var all := entries + [e];
    SizeSplits(entries, [e]);
    forall i | 0 <= i < |entries| ensures entries[i].key != e.key { assert entries[i].key in Keys(entries); }
    assert all[|entries|].key == e.key;
    forall k | k in Keys(entries) ensures k in Keys(all) {
      var j :| 0 <= j < |entries| && entries[j].key == k;
      assert all[j].key == k;
    }
  }

  /** Storing keeps both bounds; an oversized body is not stored and its old entry is gone. */
  lemma PutBounded(l: Limits, c: Cache, e: Entry, verifiedAt: int)
    requires LimitsOk(l) && Bounded(l, c)
    ensures Bounded(l, Put(l, c, e, verifiedAt))
  {
    var rest := Without(c.entries, e.key);
    WithoutKeeps(c.entries, e.key);
    if |e.body| <= l.maxBytes {
      var n := Surplus(l, rest, |e.body|);
      SurplusIsLeast(l, rest, |e.body|);
      KeysSplit(rest, n);
      AppendKeys(rest[n..], e);
    }
  }

  lemma TouchBounded(l: Limits, c: Cache, e: Entry)
    requires Bounded(l, c) && Find(c.entries, e.key) == Some(e)
    ensures Bounded(l, Touch(c, e)) && Without(Touch(c, e).entries, e.key) == Without(c.entries, e.key)
  {
    WithoutKeeps(c.entries, e.key);
    var rest := Without(c.entries, e.key);
    AppendKeys(rest, e);
    var i := WithoutIs(c.entries, e.key);
    assert e.key in Keys(c.entries) by { assert c.entries[i].key == e.key; }
    assert c.verified.Keys == Keys(rest + [e]);
    FindLast(rest, e);
    var j := WithoutIs(rest + [e], e.key);
    assert (rest + [e])[j].key == (rest + [e])[|rest|].key;
    assert (rest + [e])[..|rest|] + (rest + [e])[|rest| + 1..] == rest;
  }

  lemma {:induction false} FindLast(rest: seq<Entry>, e: Entry)
    requires e.key !in Keys(rest)
    ensures Find(rest + [e], e.key) == Some(e)
    decreases |rest|
  {
    if rest != [] {
      assert rest[0].key in Keys(rest);
      assert (rest + [e])[1..] == rest[1..] + [e];
      forall j | 0 <= j < |rest[1..]| ensures rest[1..][j].key != e.key { assert rest[j + 1].key in Keys(rest); }
      FindLast(rest[1..], e);
    }
  }

  /** A 304 answer keeps the body and its first receipt, refreshes the entry's age and evicts nothing. */
  lemma RevalidationKeepsBody(l: Limits, c: Cache, r: Call)
    requires LimitsOk(l) && Bounded(l, c) && r.answer.NotModified?
    requires Find(c.entries, r.key).Some? && r.tick - Find(c.entries, r.key).value.tick >= l.ttl
    ensures var e := Find(c.entries, r.key).value;
      var (t, result) := Request(l, c, r);
      && result == Some((e.body, e.firstReceived))
      && t.entries == Without(c.entries, r.key) + [e.(tick := r.later)]
      && t.evictions == c.evictions && r.key in t.verified && t.verified[r.key] == r.received
  {
    var i := WithoutIs(c.entries, r.key);
    var e := Find(c.entries, r.key).value;
    TouchBounded(l, c, e);
    WithoutKeeps(c.entries, r.key);
    var rest := Without(c.entries, r.key);
    assert Fits(l, rest, |e.body|);
    assert rest[0..] == rest;
  }

  lemma RequestBounded(l: Limits, c: Cache, r: Call)
    requires LimitsOk(l) && Bounded(l, c)
    ensures Bounded(l, Request(l, c, r).0)
  {
    var i := WithoutIs(c.entries, r.key);
    match Find(c.entries, r.key)
    case Some(e) =>
      TouchBounded(l, c, e);
      if r.answer.NotModified? { PutBounded(l, Touch(c, e), Entry(r.key, r.later, e.body, e.firstReceived), r.received); }
      if r.answer.Okay? { PutBounded(l, Touch(c, e), Entry(r.key, r.later, r.answer.body, r.received), r.received); }
    case None =>
      if r.answer.Okay? { PutBounded(l, c, Entry(r.key, r.later, r.answer.body, r.received), r.received); }
  }

  // ---- Runs ----

  ghost function Run(l: Limits, calls: seq<Call>): Cache {
    if calls == [] then EMPTY else Request(l, Run(l, calls[..|calls| - 1]), calls[|calls| - 1]).0
  }

  /** Whether a call reached the provider instead of being served from the cache. */
  ghost predicate Fetches(l: Limits, c: Cache, r: Call) {
    var found := Find(c.entries, r.key);
    found.None? || r.tick - found.value.tick >= l.ttl
  }

  /** The body and receipt of the last full answer the provider gave for a key. */
  ghost function LastAnswer(l: Limits, calls: seq<Call>, key: string): Option<(Bytes, int)> {
    if calls == [] then None
    else
      var r := calls[|calls| - 1];
      if r.key == key && r.answer.Okay? && Fetches(l, Run(l, calls[..|calls| - 1]), r) then Some((r.answer.body, r.received))
      else LastAnswer(l, calls[..|calls| - 1], key)
  }

  /** The position of the last call for a key. */
  ghost function LastUse(calls: seq<Call>, key: string): int {
    if calls == [] then -1
    else if calls[|calls| - 1].key == key then |calls| - 1 else LastUse(calls[..|calls| - 1], key)
  }

  /** The last call for the key in which the provider was asked and answered in full or confirmed what
      the cache held. */
  ghost function LastContact(l: Limits, calls: seq<Call>, key: string): Option<Call> {
    if calls == [] then None
    else
      var r, before := calls[|calls| - 1], Run(l, calls[..|calls| - 1]);
      if r.key == key && Fetches(l, before, r) && (r.answer.Okay? || (r.answer.NotModified? && Find(before.entries, key).Some?))
      then Some(r) else LastContact(l, calls[..|calls| - 1], key)
  }

  ghost predicate EntryOk(l: Limits, calls: seq<Call>, e: Entry) {
    && LastAnswer(l, calls, e.key) == Some((e.body, e.firstReceived)) && 0 <= LastUse(calls, e.key) < |calls|
    && LastContact(l, calls, e.key).Some? && e.tick == LastContact(l, calls, e.key).value.later
  }

  ghost predicate Faithful(l: Limits, calls: seq<Call>, entries: seq<Entry>) {
    && (forall i :: 0 <= i < |entries| ==> EntryOk(l, calls, entries[i]))
    && (forall i, j :: 0 <= i < j < |entries| ==> LastUse(calls, entries[i].key) < LastUse(calls, entries[j].key))
  }

  /** What a request leaves: a suffix of the other entries, then perhaps one for its own key. */
  ghost predicate Leaves(c: Cache, t: Cache, r: Call, own: Option<Entry>) {
    var rest := Without(c.entries, r.key);
    && (own.Some? ==> own.value.key == r.key)
    && exists n: nat :: n <= |rest| && t.entries == rest[n..] + if own.Some? then [own.value] else []
  }

  ghost predicate UsedEarlier(calls: seq<Call>, entries: seq<Entry>) {
    forall i :: 0 <= i < |entries| ==> LastUse(calls, entries[i].key) < |calls| - 1
  }

  lemma PutLeaves(l: Limits, c: Cache, e: Entry, at: int, r: Call)
    requires e.key == r.key
    ensures Leaves(c, Put(l, c, e, at), r, if |e.body| > l.maxBytes then None else Some(e))
  {
    var rest := Without(c.entries, e.key);
    var n := if |e.body| > l.maxBytes then 0 else Surplus(l, rest, |e.body|);
    assert Put(l, c, e, at).entries == rest[n..] + if |e.body| > l.maxBytes then [] else [e];
  }

  lemma RequestLeaves(l: Limits, c: Cache, r: Call) returns (own: Option<Entry>)
    requires LimitsOk(l) && Bounded(l, c)
    ensures Leaves(c, Request(l, c, r).0, r, own)
    ensures own.Some? ==>
      var found := Find(c.entries, r.key);
      if r.answer.Okay? && Fetches(l, c, r) then own.value.body == r.answer.body && own.value.firstReceived == r.received
      else found.Some? && own.value.body == found.value.body && own.value.firstReceived == found.value.firstReceived
    ensures own.Some? ==>
      var found := Find(c.entries, r.key);
      if Fetches(l, c, r) && (r.answer.Okay? || (r.answer.NotModified? && found.Some?)) then own.value.tick == r.later
      else found.Some? && own.value.tick == found.value.tick
    ensures var result := Request(l, c, r).1;
      result.Some? ==>
        if r.answer.Okay? && Fetches(l, c, r) then result.value == (r.answer.body, r.received)
        else Find(c.entries, r.key).Some? && result.value == (Find(c.entries, r.key).value.body, Find(c.entries, r.key).value.firstReceived)
  {
    var i := WithoutIs(c.entries, r.key);
    var rest := Without(c.entries, r.key);
    assert rest[0..] == rest;
    match Find(c.entries, r.key)
    case Some(e) =>
      TouchBounded(l, c, e);
      own := Some(e);
      assert Touch(c, e).entries == rest[0..] + [e];
      if Fetches(l, c, r) && !r.answer.Refused? {
        var stored := if r.answer.Okay? then Entry(r.key, r.later, r.answer.body, r.received)
                      else Entry(r.key, r.later, e.body, e.firstReceived);
        PutLeaves(l, Touch(c, e), stored, r.received, r);
        own := if |stored.body| > l.maxBytes then None else Some(stored);
      }
    case None =>
      own := None;
      assert c.entries == rest[0..] + [];
      if r.answer.Okay? {
        var stored := Entry(r.key, r.later, r.answer.body, r.received);
        PutLeaves(l, c, stored, r.received, r);
        own := if |stored.body| > l.maxBytes then None else Some(stored);
      }
  }

  lemma {:induction false} FindIn(entries: seq<Entry>, key: string) returns (i: nat)
    ensures Find(entries, key).Some? ==> i < |entries| && entries[i] == Find(entries, key).value && entries[i].key == key
    decreases |entries|
  {
    i := 0;
    if entries != [] && entries[0].key != key {
      var k := FindIn(entries[1..], key);
      i := k + 1;
    }
  }

  /** Two entries that remain after a key is removed stood in the same order before. */
  lemma WithoutPair(entries: seq<Entry>, key: string, j: nat, k: nat) returns (a: nat, b: nat)
    requires Distinct(entries) && j <= k < |Without(entries, key)|
    ensures a <= b < |entries| && (j < k ==> a < b)
    ensures Without(entries, key)[j] == entries[a] && Without(entries, key)[k] == entries[b]
    ensures entries[a].key != key && entries[b].key != key
  {
    var i := WithoutIs(entries, key);
    if Find(entries, key).Some? {
      a, b := if j < i then j else j + 1, if k < i then k else k + 1;
    } else {
      a, b := j, k;
      assert entries[a].key in Keys(entries) && entries[b].key in Keys(entries);
    }
  }

  /** Entries for other keys are as faithful after one more call, in the same order. */
  lemma OthersStayFaithful(l: Limits, calls: seq<Call>, entries: seq<Entry>, r: Call)
    requires Faithful(l, calls, entries) && Distinct(entries)
    ensures var rest := Without(entries, r.key);
      Faithful(l, calls + [r], rest) && UsedEarlier(calls + [r], rest)
  {
    var all, rest := calls + [r], Without(entries, r.key);
    assert all[..|calls|] == calls;
    forall j | 0 <= j < |rest|
      ensures EntryOk(l, all, rest[j]) && LastUse(all, rest[j].key) == LastUse(calls, rest[j].key) < |calls|
    {
      var a, b := WithoutPair(entries, r.key, j, j);
      assert EntryOk(l, calls, entries[a]);
    }
    UseOrderKept(calls, entries, r.key);
  }

  lemma UseOrderKept(calls: seq<Call>, entries: seq<Entry>, key: string)
    requires Distinct(entries)
    requires forall i, j :: 0 <= i < j < |entries| ==> LastUse(calls, entries[i].key) < LastUse(calls, entries[j].key)
    ensures var rest := Without(entries, key);
      forall i, j :: 0 <= i < j < |rest| ==> LastUse(calls, rest[i].key) < LastUse(calls, rest[j].key)
  {
    var rest := Without(entries, key);
    forall i, j | 0 <= i < j < |rest| ensures LastUse(calls, rest[i].key) < LastUse(calls, rest[j].key) {
      var a, b := WithoutPair(entries, key, i, j);
    }
  }

  /** After any calls the cache is within its bounds, lists its keys by their last use, and holds for
      each of them the provider's last full answer with its first receipt. */
  lemma {:induction false} CacheIsFaithful(l: Limits, calls: seq<Call>)
    requires LimitsOk(l)
    ensures Bounded(l, Run(l, calls)) && Faithful(l, calls, Run(l, calls).entries)
  {
    if calls != [] {
      var front, r := calls[..|calls| - 1], calls[|calls| - 1];
      CacheIsFaithful(l, front);
      var c := Run(l, front);
      RequestBounded(l, c, r);
      var own := RequestLeaves(l, c, r);
      OthersStayFaithful(l, front, c.entries, r);
      assert front + [r] == calls;
      var k := FindIn(c.entries, r.key);
      if own.Some? { assert EntryOk(l, calls, own.value); }
      LeavesFaithful(l, calls, c, Run(l, calls), r, own);
    }
  }

  lemma {:induction false} LeavesFaithful(l: Limits, calls: seq<Call>, c: Cache, t: Cache, r: Call, own: Option<Entry>)
    requires calls != [] && r == calls[|calls| - 1] && Leaves(c, t, r, own)
    requires Faithful(l, calls, Without(c.entries, r.key)) && (own.Some? ==> EntryOk(l, calls, own.value))
    requires UsedEarlier(calls, Without(c.entries, r.key))
    ensures Faithful(l, calls, t.entries)
  {
    var rest := Without(c.entries, r.key);
    var n: nat :| n <= |rest| && t.entries == rest[n..] + if own.Some? then [own.value] else [];
    var kept := |rest| - n;
    forall i | 0 <= i < |t.entries|
      ensures EntryOk(l, calls, t.entries[i])
      ensures i < kept ==> t.entries[i] == rest[n + i]
    {
      if i < kept { assert EntryOk(l, calls, rest[n + i]); }
    }
    forall i, j | 0 <= i < j < |t.entries| ensures LastUse(calls, t.entries[i].key) < LastUse(calls, t.entries[j].key) {
      assert t.entries[i] == rest[n + i];
      if j < kept {
        assert t.entries[j] == rest[n + j];
        assert LastUse(calls, rest[n + i].key) < LastUse(calls, rest[n + j].key);
      } else {
        assert t.entries[j] == own.value && LastUse(calls, own.value.key) == |calls| - 1;
        assert LastUse(calls, rest[n + i].key) < |calls| - 1;
      }
    }
  }

  /** Each cached key was last verified when the provider last answered or confirmed it. */
  lemma {:induction false} VerifiedIsLastContact(l: Limits, calls: seq<Call>, key: string)
    requires LimitsOk(l) && key in Run(l, calls).verified
    ensures LastContact(l, calls, key).Some? && Run(l, calls).verified[key] == LastContact(l, calls, key).value.received
    decreases |calls|
  {
    if calls != [] {
      var front, r := calls[..|calls| - 1], calls[|calls| - 1];
      var c := Run(l, front);
      if key in c.verified { VerifiedIsLastContact(l, front, key); }
    }
  }

  /** A request is answered exactly when the cached answer is younger than its time to live, or the provider
      answers in full or confirms what is cached. */
  lemma AnsweredWhen(l: Limits, calls: seq<Call>, r: Call)
    requires LimitsOk(l)
    ensures var contact := LastContact(l, calls, r.key);
      var cached := r.key in Run(l, calls).verified;
      && (cached ==> contact.Some?)
      && (Request(l, Run(l, calls), r).1.Some? <==>
            || (cached && r.tick - contact.value.later < l.ttl)
            || r.answer.Okay? || (cached && r.answer.NotModified?))
  {
    CacheIsFaithful(l, calls);
    var c := Run(l, calls);
    var k := FindIn(c.entries, r.key);
    if Find(c.entries, r.key).Some? {
      assert EntryOk(l, calls, c.entries[k]);
    } else {
      NotFound(c.entries, r.key);
    }
    if r.key in c.verified { VerifiedIsLastContact(l, calls, r.key); }
  }

  lemma {:induction false} NotFound(entries: seq<Entry>, key: string)
    requires Find(entries, key).None?
    ensures key !in Keys(entries)
  {
    if entries != [] {
      NotFound(entries[1..], key);
      forall i | 0 <= i < |entries| ensures entries[i].key != key {
        if i > 0 { assert entries[1..][i - 1] == entries[i] && entries[1..][i - 1].key in Keys(entries[1..]); }
      }
    }
  }

  /** Whatever a request returns is the provider's last full answer for that key and its first receipt. */
  lemma AnswersAreFaithful(l: Limits, calls: seq<Call>, r: Call)
    requires LimitsOk(l)
    ensures var result := Request(l, Run(l, calls), r).1;
      result.Some? ==> LastAnswer(l, calls + [r], r.key) == result
  {
    CacheIsFaithful(l, calls);
    var c := Run(l, calls);
    var own := RequestLeaves(l, c, r);
    var k := FindIn(c.entries, r.key);
    assert (calls + [r])[..|calls|] == calls;
  }

  /** A stored answer evicts only the entries whose last use lies furthest back, and no more of them
      than it must. */
  lemma EvictsLeastRecent(l: Limits, calls: seq<Call>, e: Entry, at: int)
    requires LimitsOk(l) && |e.body| <= l.maxBytes
    ensures var rest := Without(Run(l, calls).entries, e.key);
      var n := Surplus(l, rest, |e.body|);
      && Put(l, Run(l, calls), e, at).entries == rest[n..] + [e]
      && (forall i, j :: 0 <= i < n <= j < |rest| ==> LastUse(calls, rest[i].key) < LastUse(calls, rest[j].key))
      && Put(l, Run(l, calls), e, at).evictions == Run(l, calls).evictions + n
      && (forall m :: 0 <= m < n ==> |rest[m..]| >= l.maxEntries || Size(rest[m..]) + |e.body| > l.maxBytes)
  {
    CacheIsFaithful(l, calls);
    var c := Run(l, calls);
    EvictsOldest(l, calls, c, e, at);
  }

  lemma EvictsOldest(l: Limits, calls: seq<Call>, c: Cache, e: Entry, at: int)
    requires |e.body| <= l.maxBytes && Distinct(c.entries) && Faithful(l, calls, c.entries)
    ensures var rest := Without(c.entries, e.key);
      var n := Surplus(l, rest, |e.body|);
      && Put(l, c, e, at).entries == rest[n..] + [e]
      && (forall i, j :: 0 <= i < n <= j < |rest| ==> LastUse(calls, rest[i].key) < LastUse(calls, rest[j].key))
      && (forall m :: 0 <= m < n ==> !Fits(l, rest[m..], |e.body|))
  {
    SurplusIsLeast(l, Without(c.entries, e.key), |e.body|);
    UseOrderKept(calls, c.entries, e.key);
  }

  // ---- The cache object ----

  class ResponseCache {
    const limits: Limits
    var entries: seq<Entry>
    var bytes: int
    var verified: map<string, int>
    var evictions: nat

    ghost function View(): Cache reads this { Cache(entries, verified, evictions) }

    ghost predicate Valid() reads this { LimitsOk(limits) && Bounded(limits, View()) && bytes == Size(entries) }

    constructor (limits: Limits)
      requires LimitsOk(limits)
      ensures Valid() && this.limits == limits && View() == EMPTY
    {
      this.limits, entries, bytes, verified, evictions := limits, [], 0, map[], 0;
    }

    /** Drops the oldest entries until a body of the given size fits. */
    method Evict(size: nat)
      requires LimitsOk(limits) && bytes == Size(entries)
      modifies this
      ensures var rest := old(entries);
        var n := Surplus(limits, rest, size);
        && entries == rest[n..] && bytes == Size(entries) && evictions == old(evictions) + n
        && verified == old(verified) - Keys(rest[..n])
    {
      ghost var rest, n := entries, 0;
      while entries != [] && (|entries| >= limits.maxEntries || bytes + size > limits.maxBytes)
        invariant n <= |rest| && entries == rest[n..] && bytes == Size(entries)
        invariant Surplus(limits, entries, size) + n == Surplus(limits, rest, size)
        invariant evictions == old(evictions) + n
        invariant verified == old(verified) - Keys(rest[..n])
        decreases |entries|
      {
        var oldest := entries[0];
        bytes := bytes - |oldest.body|;
        entries := entries[1..];
        verified := verified - {oldest.key};
        evictions := evictions + 1;
        n := n + 1;
        AppendedKey(rest, n);
      }
    }

    /** Forgets one key. */
    method Pop(key: string)
      requires Distinct(entries) && bytes == Size(entries)
      modifies this
      ensures entries == Without(old(entries), key) && bytes == Size(entries)
      ensures verified == old(verified) - {key} && evictions == old(evictions)
    {
      WithoutKeeps(entries, key);
      var previous := Find(entries, key);
      if previous.Some? { bytes := bytes - |previous.value.body|; }
      entries := Without(entries, key);
      verified := verified - {key};
    }

    method Push(e: Entry, verifiedAt: int)
      requires bytes == Size(entries)
      modifies this
      ensures entries == old(entries) + [e] && bytes == Size(entries)
      ensures verified == old(verified)[e.key := verifiedAt] && evictions == old(evictions)
    {
      SizeSplits(entries, [e]);
      entries := entries + [e];
      verified := verified[e.key := verifiedAt];
      bytes := bytes + |e.body|;
    }

    method CacheResponse(e: Entry, verifiedAt: int)
      requires Valid()
      modifies this
      ensures Valid() && View() == Put(limits, old(View()), e, verifiedAt)
    {
      PutBounded(limits, View(), e, verifiedAt);
      Pop(e.key);
      if |e.body| > limits.maxBytes { return; }
      Evict(|e.body|);
      Push(e, verifiedAt);
    }

    method Fetch(r: Call) returns (result: Option<(Bytes, int)>)
      requires Valid()
      modifies this
      ensures Valid() && (View(), result) == Request(limits, old(View()), r)
    {
      var cached := Find(entries, r.key);
      ghost var i := WithoutIs(entries, r.key);
      if cached.Some? {
        TouchBounded(limits, View(), cached.value);
        WithoutKeeps(entries, r.key);
        entries := Without(entries, r.key) + [cached.value];
        SizeSplits(Without(old(entries), r.key), [cached.value]);
        if r.tick - cached.value.tick < limits.ttl { return Some((cached.value.body, cached.value.firstReceived)); }
      }
      if r.answer.NotModified? && cached.Some? {
        CacheResponse(Entry(r.key, r.later, cached.value.body, cached.value.firstReceived), r.received);
        return Some((cached.value.body, cached.value.firstReceived));
      }
      if !r.answer.Okay? { return None; }
      CacheResponse(Entry(r.key, r.later, r.answer.body, r.received), r.received);
      result := Some((r.answer.body, r.received));
    }
  }

  lemma AppendedKey(rest: seq<Entry>, n: nat)
    requires 0 < n <= |rest|
    ensures Keys(rest[..n]) == Keys(rest[..n - 1]) + {rest[n - 1].key}
  {
    assert rest[..n][n - 1] == rest[n - 1];
    forall k | k in Keys(rest[..n - 1]) ensures k in Keys(rest[..n]) {
      var j :| 0 <= j < n - 1 && rest[..n - 1][j].key == k;
      assert rest[..n][j].key == k;
    }
    forall k | k in Keys(rest[..n]) ensures k in Keys(rest[..n - 1]) + {rest[n - 1].key} {
      var j :| 0 <= j < n && rest[..n][j].key == k;
      if j < n - 1 { assert rest[..n - 1][j].key == k; }
    }
  }
}
