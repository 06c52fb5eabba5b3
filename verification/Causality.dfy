/** Extraction and decision on dated evidence: nothing later than the clock counts, and every decision
    recomputes the extraction it is given. */
module Causality {
  import opened Orders

  datatype Metric = Revenue | Eps | ContractValue | ContractMonths

  datatype Role = PriorGuidance | NewGuidance | AnnualRevenue | ContractRole

  datatype Scale = Units | Million | Billion | PerShare | Months

  datatype Fact = Fact(metric: Metric, role: Role, low: real, high: real, scale: Scale, basis: string,
                       period: Option<string>, evidence: string, span: (int, int), availableAt: int)

  datatype Amount = Amount(low: real, high: real, scale: Scale)

  datatype GuidanceMatch = GuidanceMatch(metric: Metric, basis: string, period: string, prior: Amount, new_: Amount, span: (int, int))

  datatype AnnualMatch = AnnualMatch(value: Amount, period: string, span: (int, int))

  datatype ContractMatch = ContractMatch(value: Amount, months: real, span: (int, int))

  /** `rest` stands for the fields only the abstract checks look at. */
  datatype SourceEvent = SourceEvent(
    id: string, cluster: string, issuer: Option<string>, receivedAt: int, availableAt: int, publishedAt: Option<int>,
    mappingAt: Option<int>, content: Option<string>, hashMatches: bool, correction: bool, retraction: bool,
    revisionOf: Option<string>, rest: string)

  /** The regular expressions and the checks that read one event, and the release that ran them. */
  datatype Grammar = Grammar(
    guidance: string -> seq<GuidanceMatch>, annual: string -> seq<AnnualMatch>, contracts: string -> seq<ContractMatch>,
    numbersParse: SourceEvent -> bool, verified: SourceEvent -> bool, negative: SourceEvent -> bool,
    sourceErrors: (SourceEvent, int) -> seq<string>, sourceMissing: (SourceEvent, int) -> seq<string>,
    claimErrors: (SourceEvent, seq<Fact>, int) -> seq<string>, release: string)

  // ---- Facts ----

  function FactOf(e: SourceEvent, metric: Metric, role: Role, a: Amount, basis: string, period: Option<string>, span: (int, int)): Fact {
    Fact(metric, role, a.low, a.high, a.scale, basis, period, e.id, span, e.availableAt)
  }

  function PairOf(e: SourceEvent, m: GuidanceMatch): seq<Fact> {
    [FactOf(e, m.metric, PriorGuidance, m.prior, m.basis, Some(m.period), m.span),
     FactOf(e, m.metric, NewGuidance, m.new_, m.basis, Some(m.period), m.span)]
  }

  function GuidanceFacts(e: SourceEvent, ms: seq<GuidanceMatch>): seq<Fact> {
    if ms == [] then [] else GuidanceFacts(e, ms[..|ms| - 1]) + PairOf(e, ms[|ms| - 1])
  }

  function AnnualFact(e: SourceEvent, m: AnnualMatch): Fact {
    FactOf(e, Revenue, AnnualRevenue, m.value, "GAAP", Some(m.period), m.span)
  }

  function AnnualFacts(e: SourceEvent, ms: seq<AnnualMatch>): seq<Fact> {
    if ms == [] then [] else AnnualFacts(e, ms[..|ms| - 1]) + [AnnualFact(e, ms[|ms| - 1])]
  }

  function ContractPair(e: SourceEvent, m: ContractMatch): seq<Fact> {
    [FactOf(e, ContractValue, ContractRole, m.value, "contractual", None, m.span),
     FactOf(e, ContractMonths, ContractRole, Amount(m.months, m.months, Months), "contractual", None, m.span)]
  }

  function ContractFacts(e: SourceEvent, ms: seq<ContractMatch>): seq<Fact> {
    if ms == [] then [] else ContractFacts(e, ms[..|ms| - 1]) + ContractPair(e, ms[|ms| - 1])
  }

  function TextOf(e: SourceEvent): string { if e.content.Some? then e.content.value else "" }

  function Parse(g: Grammar, e: SourceEvent): seq<Fact> {
    GuidanceFacts(e, g.guidance(TextOf(e))) + AnnualFacts(e, g.annual(TextOf(e))) + ContractFacts(e, g.contracts(TextOf(e)))
  }

  method ParseFacts(g: Grammar, e: SourceEvent) returns (facts: seq<Fact>)
    ensures facts == Parse(g, e)
  {
    facts := [];
    var text := TextOf(e);
    var ms, i := g.guidance(text), 0;
    while i < |ms|
      invariant i <= |ms| && facts == GuidanceFacts(e, ms[..i])
    {
      assert ms[..i + 1][..i] == ms[..i];
      facts := facts + PairOf(e, ms[i]);
      i := i + 1;
    }
    assert ms[..i] == ms;
    ghost var guidance := facts;
    var annual, j := g.annual(text), 0;
    while j < |annual|
      invariant j <= |annual| && facts == guidance + AnnualFacts(e, annual[..j])
    {
      assert annual[..j + 1][..j] == annual[..j];
      facts := facts + [AnnualFact(e, annual[j])];
      j := j + 1;
    }
    assert annual[..j] == annual;
    ghost var both := facts;
    var contracts, k := g.contracts(text), 0;
    while k < |contracts|
      invariant k <= |contracts| && facts == both + ContractFacts(e, contracts[..k])
    {
      assert contracts[..k + 1][..k] == contracts[..k];
      facts := facts + ContractPair(e, contracts[k]);
      k := k + 1;
    }
    assert contracts[..k] == contracts;
  }

  function OfRole(facts: seq<Fact>, roles: set<Role>): seq<Fact> {
    if facts == [] then []
    else OfRole(facts[..|facts| - 1], roles) + if facts[|facts| - 1].role in roles then [facts[|facts| - 1]] else []
  }

  function OfMetric(facts: seq<Fact>, metric: Metric): seq<Fact> {
    if facts == [] then []
    else OfMetric(facts[..|facts| - 1], metric) + if facts[|facts| - 1].metric == metric then [facts[|facts| - 1]] else []
  }

  // ---- Extraction ----

  predicate AvailableBy(e: SourceEvent, now: int) { e.availableAt <= now && e.receivedAt <= now }

  function Available(evidence: seq<SourceEvent>, now: int): seq<SourceEvent> {
    if evidence == [] then []
    else
      var e := evidence[|evidence| - 1];
      Available(evidence[..|evidence| - 1], now) + if AvailableBy(e, now) then [e] else []
  }

  /** An item of prior evidence: the very event being extracted, or another object, which may be equal
      to it. The code tells the two apart by identity. */
  datatype Item = Itself | Other(item: SourceEvent)

  function Of(event: SourceEvent, i: Item): SourceEvent { if i.Itself? then event else i.item }

  function Values(event: SourceEvent, items: seq<Item>): seq<SourceEvent> {
    if items == [] then [] else Values(event, items[..|items| - 1]) + [Of(event, items[|items| - 1])]
  }

  function AvailableItems(event: SourceEvent, items: seq<Item>, now: int): seq<Item> {
    if items == [] then []
    else
      var i := items[|items| - 1];
      AvailableItems(event, items[..|items| - 1], now) + if AvailableBy(Of(event, i), now) then [i] else []
  }

  /** What one item of the packet contributes: everything if it is the event, else annual revenue. */
  function Contribution(g: Grammar, event: SourceEvent, i: Item): seq<Fact> {
    var e := Of(event, i);
    if e.issuer != event.issuer || !g.verified(e) || (e.content.Some? && !e.hashMatches) || !g.numbersParse(e) then []
    else if i.Itself? then Parse(g, e)
    else OfRole(Parse(g, e), {AnnualRevenue})
  }

  function ItemErrors(g: Grammar, event: SourceEvent, i: Item): seq<string> {
    var e := Of(event, i);
    if e.issuer != event.issuer || !g.verified(e) then
      if i.Itself? then [] else ["evidence_issuer_or_primary_mismatch"]
    else if e.content.Some? && !e.hashMatches then ["evidence_content_hash_mismatch"]
    else
      (if e.mappingAt.None? || e.mappingAt.value > e.availableAt then ["evidence_mapping_not_available"] else [])
      + (if e.retraction || e.correction || e.revisionOf.Some? then ["related_correction_or_retraction"] else [])
      + (if g.numbersParse(e) then [] else ["invalid_numeric_evidence"])
  }

  function PacketFacts(g: Grammar, event: SourceEvent, packet: seq<Item>): seq<Fact> {
    if packet == [] then []
    else PacketFacts(g, event, packet[..|packet| - 1]) + Contribution(g, event, packet[|packet| - 1])
  }

  function PacketErrors(g: Grammar, event: SourceEvent, packet: seq<Item>): seq<string> {
    if packet == [] then []
    else PacketErrors(g, event, packet[..|packet| - 1]) + ItemErrors(g, event, packet[|packet| - 1])
  }

  datatype EventType = EarningsAndGuidance | ValuedContract | Risk | UnclassifiedEvent

  function Guidance(facts: seq<Fact>): seq<Fact> { OfRole(facts, {PriorGuidance, NewGuidance}) }

  predicate HasContract(facts: seq<Fact>) { exists i :: 0 <= i < |facts| && facts[i].metric == ContractValue }

  function TypeOf(g: Grammar, event: SourceEvent, facts: seq<Fact>): EventType {
    if Guidance(facts) != [] && HasContract(facts) then UnclassifiedEvent
    else if Guidance(facts) != [] then EarningsAndGuidance
    else if HasContract(facts) then ValuedContract
    else if event.retraction || g.negative(event) then Risk
    else UnclassifiedEvent
  }

  function LastAvailable(packet: seq<SourceEvent>): int
    requires packet != []
  {
    var last := packet[|packet| - 1].availableAt;
    if |packet| == 1 then last
    else
      var before := LastAvailable(packet[..|packet| - 1]);
      if before < last then last else before
  }

  function Ids(packet: seq<SourceEvent>): seq<string> {
    if packet == [] then [] else Ids(packet[..|packet| - 1]) + [packet[|packet| - 1].id]
  }

  /** Drops repetitions, keeping first occurrences in order. */
  function Dedupe(s: seq<string>): seq<string> {
    if s == [] then []
    else
      var front := Dedupe(s[..|s| - 1]);
      if s[|s| - 1] in front then front else front + [s[|s| - 1]]
  }

  datatype Answer = Malformed | Answer(issuer: Option<string>, kind: EventType, facts: seq<Fact>, contradictions: seq<string>, missing: seq<string>)

  /** The input hash is injective, so the hashed packet itself stands for it. */
  datatype Extraction = Extraction(
    event: string, cluster: string, issuer: Option<string>, kind: EventType, facts: seq<Fact>, evidence: seq<string>,
    availableAt: int, completedAt: int, contradictions: seq<string>, missing: seq<string>, input: seq<SourceEvent>, release: string)

  function Extract(g: Grammar, event: SourceEvent, now: int, prior: seq<Item>, answer: Option<Answer>): Extraction {
    var packet := [Itself] + AvailableItems(event, prior, now);
    var values := [event] + Values(event, AvailableItems(event, prior, now));
    var facts := PacketFacts(g, event, packet);
    var kind := TypeOf(g, event, facts);
    var missing := Dedupe(g.sourceMissing(event, now)
      + (if kind == UnclassifiedEvent && Guidance(facts) == [] then ["supported_quantitative_event"] else []));
    var errors := Dedupe(g.sourceErrors(event, now) + PacketErrors(g, event, packet)
      + (if Guidance(facts) != [] && HasContract(facts) then ["multiple_hypotheses_in_one_event"] else [])
      + g.claimErrors(event, facts, now));
    var verdict :=
      if answer.None? then []
      else if answer.value.Malformed? then ["invalid_model_output_schema"]
      else if answer.value != Answer(event.issuer, kind, facts, errors, missing) then ["model_output_evidence_mismatch"]
      else [];
    Extraction(event.id, event.cluster, event.issuer, kind, facts, Ids(values), LastAvailable(values), now,
               errors + verdict, missing, values, g.release)
  }

  method CollectFacts(g: Grammar, event: SourceEvent, packet: seq<Item>) returns (facts: seq<Fact>, errors: seq<string>)
    ensures facts == PacketFacts(g, event, packet) && errors == PacketErrors(g, event, packet)
  {
    facts, errors := [], [];
    var i := 0;
    while i < |packet|
      invariant i <= |packet|
      invariant facts == PacketFacts(g, event, packet[..i]) && errors == PacketErrors(g, event, packet[..i])
    {
      assert packet[..i + 1][..i] == packet[..i];
      facts := facts + Contribution(g, event, packet[i]);
      errors := errors + ItemErrors(g, event, packet[i]);
      i := i + 1;
    }
    assert packet[..i] == packet;
  }

  // ---- Guidance facts alternate ----

  /** Prior and new guidance take turns, and each pair comes from one match. */
  ghost predicate Alternates(s: seq<Fact>) {
    s == [] || (|s| >= 2 && Paired(s[|s| - 2], s[|s| - 1]) && Alternates(s[..|s| - 2]))
  }

  ghost predicate Paired(a: Fact, b: Fact) {
    && a.role == PriorGuidance && b.role == NewGuidance && a.metric == b.metric
    && a.basis == b.basis && a.period == b.period && a.evidence == b.evidence && a.span == b.span
  }

  lemma {:induction false} AlternatesAppend(a: seq<Fact>, b: seq<Fact>)
    requires Alternates(a) && Alternates(b)
    ensures Alternates(a + b)
    decreases |b|
  {
    if b == [] {
      assert a + b == a;
    } else {
      AlternatesAppend(a, b[..|b| - 2]);
      assert (a + b)[..|a + b| - 2] == a + b[..|b| - 2];
    }
  }

  lemma {:induction false} OfRoleAppend(a: seq<Fact>, b: seq<Fact>, roles: set<Role>)
    ensures OfRole(a + b, roles) == OfRole(a, roles) + OfRole(b, roles)
    decreases |b|
  {
    if b == [] {
      assert a + b == a;
    } else {
      assert (a + b)[..|a + b| - 1] == a + b[..|b| - 1];
      OfRoleAppend(a, b[..|b| - 1], roles);
    }
  }

  lemma {:induction false} OfRoleNone(s: seq<Fact>, roles: set<Role>)
    requires forall i :: 0 <= i < |s| ==> s[i].role !in roles
    ensures OfRole(s, roles) == []
  {
    if s != [] { OfRoleNone(s[..|s| - 1], roles); }
  }

  lemma {:induction false} OfRoleHas(s: seq<Fact>, roles: set<Role>)
    ensures forall i :: 0 <= i < |OfRole(s, roles)| ==> OfRole(s, roles)[i].role in roles
  {
    if s != [] { OfRoleHas(s[..|s| - 1], roles); }
  }

  lemma {:induction false} GuidanceFactsAlternate(e: SourceEvent, ms: seq<GuidanceMatch>)
    ensures Alternates(GuidanceFacts(e, ms)) && Guidance(GuidanceFacts(e, ms)) == GuidanceFacts(e, ms)
  {
    if ms != [] {
      var front, pair := GuidanceFacts(e, ms[..|ms| - 1]), PairOf(e, ms[|ms| - 1]);
      GuidanceFactsAlternate(e, ms[..|ms| - 1]);
      AlternatesAppend(front, pair);
      OfRoleAppend(front, pair, {PriorGuidance, NewGuidance});
      assert pair[..0] == [];
      assert pair[..1] == [pair[0]] && pair[..1][..0] == [];
      assert OfRole(pair[..1], {PriorGuidance, NewGuidance}) == [pair[0]];
    }
  }

  lemma {:induction false} OtherRoles(e: SourceEvent, annual: seq<AnnualMatch>, contracts: seq<ContractMatch>)
    ensures forall i :: 0 <= i < |AnnualFacts(e, annual)| ==> AnnualFacts(e, annual)[i].role == AnnualRevenue
    ensures forall i :: 0 <= i < |ContractFacts(e, contracts)| ==> ContractFacts(e, contracts)[i].role == ContractRole
    decreases |annual| + |contracts|
  {
    if annual != [] { OtherRoles(e, annual[..|annual| - 1], contracts); }
    if contracts != [] { OtherRoles(e, annual, contracts[..|contracts| - 1]); }
  }

  lemma ParsedGuidance(g: Grammar, e: SourceEvent)
    ensures Guidance(Parse(g, e)) == GuidanceFacts(e, g.guidance(TextOf(e)))
  {
    var roles := {PriorGuidance, NewGuidance};
    var a, b, c := GuidanceFacts(e, g.guidance(TextOf(e))), AnnualFacts(e, g.annual(TextOf(e))), ContractFacts(e, g.contracts(TextOf(e)));
    OtherRoles(e, g.annual(TextOf(e)), g.contracts(TextOf(e)));
    OfRoleNone(b, roles);
    OfRoleNone(c, roles);
    OfRoleAppend(a, b, roles);
    OfRoleAppend(a + b, c, roles);
    GuidanceFactsAlternate(e, g.guidance(TextOf(e)));
  }

  lemma ContributionAlternates(g: Grammar, event: SourceEvent, i: Item)
    ensures Alternates(Guidance(Contribution(g, event, i)))
  {
    var e := Of(event, i);
    ParsedGuidance(g, e);
    GuidanceFactsAlternate(e, g.guidance(TextOf(e)));
    var annual := OfRole(Parse(g, e), {AnnualRevenue});
    OfRoleHas(Parse(g, e), {AnnualRevenue});
    OfRoleNone(annual, {PriorGuidance, NewGuidance});
  }

  lemma {:induction false} AlternatingIsEven(s: seq<Fact>)
    requires Alternates(s)
    ensures |s| % 2 == 0
    decreases |s|
  {
    if s != [] { AlternatingIsEven(s[..|s| - 2]); }
  }

  /** Whatever the texts, the guidance facts of an extraction strictly alternate between a prior and its
      new value, so pairing every second one with its successor never runs out. */
  lemma {:induction false} GuidanceAlternates(g: Grammar, event: SourceEvent, packet: seq<Item>)
    ensures Alternates(Guidance(PacketFacts(g, event, packet)))
    ensures |Guidance(PacketFacts(g, event, packet))| % 2 == 0
  {
    if packet != [] {
      var front := packet[..|packet| - 1];
      GuidanceAlternates(g, event, front);
      ContributionAlternates(g, event, packet[|packet| - 1]);
      OfRoleAppend(PacketFacts(g, event, front), Contribution(g, event, packet[|packet| - 1]), {PriorGuidance, NewGuidance});
      AlternatesAppend(Guidance(PacketFacts(g, event, front)), Guidance(Contribution(g, event, packet[|packet| - 1])));
    }
    AlternatingIsEven(Guidance(PacketFacts(g, event, packet)));
  }

  lemma {:induction false} OfRoleTwice(s: seq<Fact>, small: set<Role>, big: set<Role>)
    requires small <= big
    ensures OfRole(OfRole(s, big), small) == OfRole(s, small)
  {
    if s != [] {
      var front, last := s[..|s| - 1], s[|s| - 1];
      OfRoleTwice(front, small, big);
      assert [last][..0] == [];
      assert OfRole([last], small) == if last.role in small then [last] else [];
      OfRoleAppend(OfRole(front, big), if last.role in big then [last] else [], small);
    }
  }

  lemma OfRolePair(a: Fact, b: Fact)
    requires Paired(a, b)
    ensures OfRole([a, b], {PriorGuidance}) == [a] && OfRole([a, b], {NewGuidance}) == [b]
  {
    assert [a, b][..1] == [a] && [a][..0] == [];
    assert OfRole([a], {PriorGuidance}) == [a] && OfRole([a], {NewGuidance}) == [];
  }

  ghost predicate AllPaired(prior: seq<Fact>, new_: seq<Fact>) {
    |prior| == |new_| && forall i :: 0 <= i < |prior| ==> Paired(prior[i], new_[i])
  }

  lemma AllPairedAppend(prior: seq<Fact>, new_: seq<Fact>, a: Fact, b: Fact)
    requires AllPaired(prior, new_) && Paired(a, b)
    ensures AllPaired(prior + [a], new_ + [b])
  {
  }

  lemma {:induction false} AlternatingSplits(s: seq<Fact>)
    requires Alternates(s)
    ensures AllPaired(OfRole(s, {PriorGuidance}), OfRole(s, {NewGuidance}))
    decreases |s|
  {
    if s != [] {
      var n := |s| - 2;
      var front, a, b := s[..n], s[n], s[n + 1];
      AlternatingSplits(front);
      assert s == front + [a, b];
      OfRoleAppend(front, [a, b], {PriorGuidance});
      OfRoleAppend(front, [a, b], {NewGuidance});
      OfRolePair(a, b);
      AllPairedAppend(OfRole(front, {PriorGuidance}), OfRole(front, {NewGuidance}), a, b);
    }
  }

  /** The decision compares each new guidance value with the prior value of the same sentence. */
  lemma GuidancePairsLineUp(g: Grammar, event: SourceEvent, packet: seq<Item>)
    ensures var facts := PacketFacts(g, event, packet);
      AllPaired(OfRole(facts, {PriorGuidance}), OfRole(facts, {NewGuidance}))
  {
    var facts := PacketFacts(g, event, packet);
    GuidanceAlternates(g, event, packet);
    AlternatingSplits(Guidance(facts));
    OfRoleTwice(facts, {PriorGuidance}, {PriorGuidance, NewGuidance});
    OfRoleTwice(facts, {NewGuidance}, {PriorGuidance, NewGuidance});
  }

  // ---- The decision ----

  function AvailableMap(evidence: seq<SourceEvent>): map<string, SourceEvent> {
    if evidence == [] then map[]
    else AvailableMap(evidence[..|evidence| - 1])[evidence[|evidence| - 1].id := evidence[|evidence| - 1]]
  }

  function Packet(ids: seq<string>, available: map<string, SourceEvent>): seq<SourceEvent> {
    if ids == [] then []
    else
      var id := ids[|ids| - 1];
      Packet(ids[..|ids| - 1], available) + if id in available then [available[id]] else []
  }

  /** The packet without what has the event's own id: none of it is the event itself. */
  function Others(packet: seq<SourceEvent>, id: string): seq<Item> {
    if packet == [] then []
    else Others(packet[..|packet| - 1], id) + if packet[|packet| - 1].id != id then [Other(packet[|packet| - 1])] else []
  }

  predicate Differs(a: Extraction, b: Extraction) {
    || a.facts != b.facts || a.issuer != b.issuer || a.cluster != b.cluster || a.kind != b.kind
    || a.availableAt != b.availableAt || a.release != b.release
  }

  predicate Corrects(item: SourceEvent, x: Extraction) {
    && item.issuer == x.issuer
    && (item.cluster == x.cluster || (item.revisionOf.Some? && item.revisionOf.value in x.evidence))
    && (item.retraction || item.correction || item.revisionOf.Some?)
  }

  function Midpoint(f: Fact): real {
    (f.low + f.high) / 2.0 * match f.scale case Million => 1000000.0 case Billion => 1000000000.0 case _ => 1.0
  }

  /** By what fraction the new value exceeds the prior one. */
  function Change(prior: Fact, new_: Fact): (r: real)
    requires Midpoint(prior) > 0.0
    ensures r * Midpoint(prior) == Midpoint(new_) - Midpoint(prior)
  {
    (Midpoint(new_) - Midpoint(prior)) / Midpoint(prior)
  }

  /** Relative guidance changes over pairs with a positive prior value. */
  function Changes(prior: seq<Fact>, new_: seq<Fact>): seq<real> {
    if prior == [] || new_ == [] then []
    else
      var n := if |prior| < |new_| then |prior| else |new_|;
      Changes(prior[..n - 1], new_[..n - 1])
      + if Midpoint(prior[n - 1]) <= 0.0 then [] else [Change(prior[n - 1], new_[n - 1])]
  }

  function Least(s: seq<real>): Option<real> {
    if s == [] then None
    else
      var before := Least(s[..|s| - 1]);
      if before.None? || s[|s| - 1] < before.value then Some(s[|s| - 1]) else before
  }

  /** Pairs of prior and new guidance with a positive prior value. */
  ghost predicate Comparable(prior: seq<Fact>, new_: seq<Fact>, i: int) {
    0 <= i < |prior| && i < |new_| && Midpoint(prior[i]) > 0.0
  }

  /** The revision is the smallest relative change over the comparable pairs, if there is one. */
  ghost predicate LeastRevision(r: Option<real>, prior: seq<Fact>, new_: seq<Fact>) {
    && (r.None? <==> forall i :: !Comparable(prior, new_, i))
    && (r.Some? ==>
          && (exists i :: Comparable(prior, new_, i) && r.value == Change(prior[i], new_[i]))
          && (forall i :: Comparable(prior, new_, i) ==> r.value <= Change(prior[i], new_[i])))
  }

  lemma ComparableFront(prior: seq<Fact>, new_: seq<Fact>, n: nat, i: int)
    requires 0 < n <= |prior| && n <= |new_| && (n == |prior| || n == |new_|)
    ensures Comparable(prior, new_, i)
            <==> Comparable(prior[..n - 1], new_[..n - 1], i) || (i == n - 1 && Midpoint(prior[n - 1]) > 0.0)
  {
  }

  lemma {:induction false} LeastIsLeast(s: seq<real>)
    ensures Least(s).None? <==> s == []
    ensures Least(s).Some? ==> Least(s).value in s && forall x :: x in s ==> Least(s).value <= x
  {
    if s != [] {
      LeastIsLeast(s[..|s| - 1]);
      assert s == s[..|s| - 1] + [s[|s| - 1]];
    }
  }

  ghost predicate ChangeAt(prior: seq<Fact>, new_: seq<Fact>, i: int, x: real) {
    Comparable(prior, new_, i) && x == Change(prior[i], new_[i])
  }

  lemma {:induction false} ChangesAre(prior: seq<Fact>, new_: seq<Fact>, x: real)
    ensures x in Changes(prior, new_) <==> exists i :: ChangeAt(prior, new_, i, x)
    decreases |prior|
  {
    if prior != [] && new_ != [] {
      var n := if |prior| < |new_| then |prior| else |new_|;
      var p, q := prior[..n - 1], new_[..n - 1];
      ChangesAre(p, q, x);
      forall i ensures ChangeAt(prior, new_, i, x) <==> ChangeAt(p, q, i, x) || (i == n - 1 && ChangeAt(prior, new_, i, x)) {
        ComparableFront(prior, new_, n, i);
      }
      if Midpoint(prior[n - 1]) > 0.0 && x == Change(prior[n - 1], new_[n - 1]) { assert ChangeAt(prior, new_, n - 1, x); }
    }
  }

  lemma RevisionIsLeast(prior: seq<Fact>, new_: seq<Fact>)
    ensures LeastRevision(Least(Changes(prior, new_)), prior, new_)
  {
    var changes := Changes(prior, new_);
    LeastIsLeast(changes);
    forall i | Comparable(prior, new_, i) ensures Change(prior[i], new_[i]) in changes {
      assert ChangeAt(prior, new_, i, Change(prior[i], new_[i]));
      ChangesAre(prior, new_, Change(prior[i], new_[i]));
    }
    if changes != [] {
      ChangesAre(prior, new_, Least(changes).value);
      var i :| ChangeAt(prior, new_, i, Least(changes).value);
      assert Comparable(prior, new_, i);
    }
  }

  /** The market, quote, eligibility and threshold checks, as far as they read evidence only through
      the event and the annual-revenue reference. */
  type Gates = (Extraction, Option<SourceEvent>, Option<SourceEvent>, int) -> seq<string>

  datatype Decision = Decision(eligible: bool, reasons: seq<string>, decidedAt: int, extraction: Extraction,
                               revision: Option<real>, ratio: Option<real>)

  /** The evidence reasons: packet, clock, recomputation and corrections. */
  function EvidenceReasons(g: Grammar, x: Extraction, available: map<string, SourceEvent>, now: int): seq<string> {
    var packet := Packet(x.evidence, available);
    (if |packet| != |x.evidence| || packet != x.input then ["evidence_packet_mismatch"] else [])
    + (if x.completedAt > now || x.availableAt > now then ["extraction_not_yet_available"] else [])
    + (if x.event !in available then ["missing_source_evidence"]
       else
         var baseline := Extract(g, available[x.event], x.completedAt, Others(packet, available[x.event].id), None);
         (if Differs(x, baseline) then ["extraction_evidence_mismatch"] else []) + baseline.contradictions + baseline.missing)
    + (if exists id :: id in available && Corrects(available[id], x) then ["known_correction_or_retraction"] else [])
  }

  function Find(available: map<string, SourceEvent>, id: string): Option<SourceEvent> {
    if id in available then Some(available[id]) else None
  }

  function Decide(g: Grammar, gates: Gates, x: Extraction, evidence: seq<SourceEvent>, now: int, seen: set<string>): Decision {
    var available := AvailableMap(Available(evidence, now));
    var revenues := OfRole(x.facts, {AnnualRevenue});
    var contracts, durations := OfMetric(x.facts, ContractValue), OfMetric(x.facts, ContractMonths);
    var reference := if revenues == [] then None else Find(available, revenues[0].evidence);
    var reasons := Dedupe(x.contradictions + x.missing + EvidenceReasons(g, x, available, now)
      + (if x.cluster in seen then ["duplicate_event_cluster"] else []) + gates(x, Find(available, x.event), reference, now));
    Decision(reasons == [], reasons, now, x,
             if x.kind != EarningsAndGuidance then None
             else Least(Changes(OfRole(x.facts, {PriorGuidance}), OfRole(x.facts, {NewGuidance}))),
             if x.kind != ValuedContract || |contracts| != 1 || |durations| != 1 || |revenues| != 1
                || Midpoint(revenues[0]) <= 0.0
             then None else Some(Midpoint(contracts[0]) / Midpoint(revenues[0])))
  }

  predicate Scaled(f: Fact, amount: real) {
    2.0 * amount == (f.low + f.high) * (if f.scale.Million? then 1000000.0 else if f.scale.Billion? then 1000000000.0 else 1.0)
  }

  lemma QuotientTimes(x: real, y: real)
    requires y != 0.0
    ensures x / y * y == x
  {
  }

  lemma MidpointIsScaled(f: Fact)
    ensures Scaled(f, Midpoint(f))
  {
  }

  /** What a decision reports: for earnings with guidance the smallest relative revision, for a valued
      contract with one value, one duration and one positive annual revenue their ratio, else nothing. */
  lemma DecisionMeasures(g: Grammar, gates: Gates, x: Extraction, evidence: seq<SourceEvent>, now: int, seen: set<string>)
    ensures var d := Decide(g, gates, x, evidence, now, seen);
      var revenues, contracts := OfRole(x.facts, {AnnualRevenue}), OfMetric(x.facts, ContractValue);
      && (if x.kind == EarningsAndGuidance
          then LeastRevision(d.revision, OfRole(x.facts, {PriorGuidance}), OfRole(x.facts, {NewGuidance}))
          else d.revision.None?)
      && (d.ratio.Some? <==>
            && x.kind == ValuedContract && |contracts| == 1 && |OfMetric(x.facts, ContractMonths)| == 1
            && |revenues| == 1 && revenues[0].low + revenues[0].high > 0.0)
      && (d.ratio.Some? ==>
            exists value, revenue :: Scaled(contracts[0], value) && Scaled(revenues[0], revenue) && d.ratio.value * revenue == value)
  {
    RevisionIsLeast(OfRole(x.facts, {PriorGuidance}), OfRole(x.facts, {NewGuidance}));
    var d := Decide(g, gates, x, evidence, now, seen);
    if d.ratio.Some? {
      var value, revenue := Midpoint(OfMetric(x.facts, ContractValue)[0]), Midpoint(OfRole(x.facts, {AnnualRevenue})[0]);
      MidpointIsScaled(OfMetric(x.facts, ContractValue)[0]);
      MidpointIsScaled(OfRole(x.facts, {AnnualRevenue})[0]);
      QuotientTimes(value, revenue);
    }
  }

  // ---- Later evidence does not count ----

  lemma {:induction false} AvailableAppend(a: seq<SourceEvent>, b: seq<SourceEvent>, now: int)
    ensures Available(a + b, now) == Available(a, now) + Available(b, now)
    decreases |b|
  {
    if b == [] {
      assert a + b == a;
    } else {
      assert (a + b)[..|a + b| - 1] == a + b[..|b| - 1];
      AvailableAppend(a, b[..|b| - 1], now);
    }
  }

  lemma {:induction false} LaterIsUnavailable(later: seq<SourceEvent>, now: int)
    requires forall e :: e in later ==> !AvailableBy(e, now)
    ensures Available(later, now) == []
  {
    if later != [] {
      assert later[|later| - 1] in later;
      LaterIsUnavailable(later[..|later| - 1], now);
    }
  }

  lemma LaterIsInvisible(a: seq<SourceEvent>, later: seq<SourceEvent>, b: seq<SourceEvent>, now: int)
    requires forall e :: e in later ==> !AvailableBy(e, now)
    ensures Available(a + later + b, now) == Available(a + b, now)
  {
    LaterIsUnavailable(later, now);
    AvailableAppend(a + later, b, now);
    AvailableAppend(a, later, now);
    AvailableAppend(a, b, now);
  }

  lemma {:induction false} ItemsAppend(event: SourceEvent, a: seq<Item>, b: seq<Item>, now: int)
    ensures AvailableItems(event, a + b, now) == AvailableItems(event, a, now) + AvailableItems(event, b, now)
    decreases |b|
  {
    if b == [] {
      assert a + b == a;
    } else {
      assert (a + b)[..|a + b| - 1] == a + b[..|b| - 1];
      ItemsAppend(event, a, b[..|b| - 1], now);
    }
  }

  lemma {:induction false} LaterItems(event: SourceEvent, later: seq<Item>, now: int)
    requires forall i :: i in later ==> !AvailableBy(Of(event, i), now)
    ensures AvailableItems(event, later, now) == []
  {
    if later != [] {
      assert later[|later| - 1] in later;
      LaterItems(event, later[..|later| - 1], now);
    }
  }

  lemma LaterItemsAreInvisible(event: SourceEvent, a: seq<Item>, later: seq<Item>, b: seq<Item>, now: int)
    requires forall i :: i in later ==> !AvailableBy(Of(event, i), now)
    ensures AvailableItems(event, a + later + b, now) == AvailableItems(event, a + b, now)
  {
    LaterItems(event, later, now);
    ItemsAppend(event, a + later, b, now);
    ItemsAppend(event, a, later, now);
    ItemsAppend(event, a, b, now);
  }

  /** Evidence that becomes available only after the clock, wherever it stands in the list, changes no
      field of an extraction. */
  lemma ExtractionIgnoresLater(g: Grammar, event: SourceEvent, answer: Option<Answer>,
                               a: seq<Item>, later: seq<Item>, b: seq<Item>, now: int)
    requires forall i :: i in later ==> !AvailableBy(Of(event, i), now)
    ensures Extract(g, event, now, a + later + b, answer) == Extract(g, event, now, a + b, answer)
  {
    LaterItemsAreInvisible(event, a, later, b, now);
  }

  /** Nor does it change any field of a decision. */
  lemma DecisionIgnoresLater(g: Grammar, gates: Gates, x: Extraction, seen: set<string>,
                             a: seq<SourceEvent>, later: seq<SourceEvent>, b: seq<SourceEvent>, now: int)
    requires forall e :: e in later ==> !AvailableBy(e, now)
    ensures Decide(g, gates, x, a + later + b, now, seen) == Decide(g, gates, x, a + b, now, seen)
  {
    LaterIsInvisible(a, later, b, now);
  }

  // ---- Every decision recomputes its extraction ----

  lemma {:induction false} DedupeEmpty(s: seq<string>)
    ensures Dedupe(s) == [] <==> s == []
  {
    if s != [] { DedupeEmpty(s[..|s| - 1]); }
  }

  /** An eligible decision rests on exactly the packet its extraction names, id for id, recomputes to the
      same facts, issuer, cluster, kind, availability and release, and knows of no correction: an altered
      extraction always abstains. */
  lemma EligibleIsRecomputed(g: Grammar, gates: Gates, x: Extraction, evidence: seq<SourceEvent>, now: int, seen: set<string>)
    requires Decide(g, gates, x, evidence, now, seen).eligible
    ensures var available := AvailableMap(Available(evidence, now));
      && x.event in available && Packet(x.evidence, available) == x.input && |x.evidence| == |x.input|
      && x.completedAt <= now && x.availableAt <= now && x.contradictions == [] && x.missing == []
      && var baseline := Extract(g, available[x.event], x.completedAt, Others(x.input, available[x.event].id), None);
      && x.facts == baseline.facts && x.issuer == baseline.issuer && x.cluster == baseline.cluster && x.kind == baseline.kind
      && x.availableAt == baseline.availableAt && x.release == baseline.release
      && baseline.contradictions == [] && baseline.missing == []
      && forall id :: id in available ==> !Corrects(available[id], x)
  {
    var available := AvailableMap(Available(evidence, now));
    var revenues := OfRole(x.facts, {AnnualRevenue});
    var reference := if revenues == [] then None else Find(available, revenues[0].evidence);
    DedupeEmpty(x.contradictions + x.missing + EvidenceReasons(g, x, available, now)
      + (if x.cluster in seen then ["duplicate_event_cluster"] else []) + gates(x, Find(available, x.event), reference, now));
  }

  /** The evidence a decision is given holds, by its time, every item of the packet under its own id. */
  ghost predicate Delivers(evidence: seq<SourceEvent>, now: int, packet: seq<SourceEvent>) {
    var available := AvailableMap(Available(evidence, now));
    forall e :: e in packet ==> e.id in available && available[e.id] == e
  }

  lemma PacketOfOneMore(ids: seq<string>, id: string, available: map<string, SourceEvent>)
    requires id in available
    ensures Packet(ids + [id], available) == Packet(ids, available) + [available[id]]
  {
    assert (ids + [id])[..|ids|] == ids;
  }

  lemma {:induction false} PacketIsDelivered(packet: seq<SourceEvent>, available: map<string, SourceEvent>)
    requires forall e :: e in packet ==> e.id in available && available[e.id] == e
    ensures Packet(Ids(packet), available) == packet
  {
    if packet != [] {
      var front, last := packet[..|packet| - 1], packet[|packet| - 1];
      assert last in packet;
      PacketIsDelivered(front, available);
      PacketOfOneMore(Ids(front), last.id, available);
    }
  }

  // ---- The event among its own prior evidence ----

  /** The items that are not the event under its own id: exactly what a recomputation is given. */
  ghost function Kept(event: SourceEvent, items: seq<Item>): seq<Item> {
    if items == [] then []
    else
      var i := items[|items| - 1];
      Kept(event, items[..|items| - 1]) + if Of(event, i).id != event.id then [i] else []
  }

  lemma {:induction false} OthersAreKept(event: SourceEvent, items: seq<Item>)
    ensures Others([event] + Values(event, items), event.id) == Kept(event, items)
    decreases |items|
  {
    if items == [] {
      assert [event] + Values(event, items) == [event] && [event][..0] == [];
      assert Others([event], event.id) == [];
    } else {
      var front := items[..|items| - 1];
      OthersAreKept(event, front);
      var all := [event] + Values(event, items);
      assert all[..|all| - 1] == [event] + Values(event, front);
    }
  }

  lemma {:induction false} AvailableItemsHas(event: SourceEvent, items: seq<Item>, now: int)
    ensures forall i :: i in AvailableItems(event, items, now) ==> AvailableBy(Of(event, i), now) && i in items
  {
    if items != [] { AvailableItemsHas(event, items[..|items| - 1], now); }
  }

  lemma {:induction false} KeptHas(event: SourceEvent, items: seq<Item>)
    ensures forall i :: i in Kept(event, items) ==> i in items
  {
    if items != [] { KeptHas(event, items[..|items| - 1]); }
  }

  lemma {:induction false} AllAvailable(event: SourceEvent, items: seq<Item>, now: int)
    requires forall i :: i in items ==> AvailableBy(Of(event, i), now)
    ensures AvailableItems(event, items, now) == items
  {
    if items != [] {
      assert items[|items| - 1] in items;
      AllAvailable(event, items[..|items| - 1], now);
      assert items == items[..|items| - 1] + [items[|items| - 1]];
    }
  }

  lemma {:induction false} ValuesHas(event: SourceEvent, items: seq<Item>)
    ensures forall i :: i in items ==> Of(event, i) in Values(event, items)
  {
    if items != [] {
      ValuesHas(event, items[..|items| - 1]);
      assert items == items[..|items| - 1] + [items[|items| - 1]];
    }
  }

  /** The facts of a packet, for any contribution of its items. */
  ghost function Gather(gives: Item -> seq<Fact>, packet: seq<Item>): seq<Fact> {
    if packet == [] then [] else Gather(gives, packet[..|packet| - 1]) + gives(packet[|packet| - 1])
  }

  ghost function Giving(g: Grammar, event: SourceEvent): Item -> seq<Fact> { i => Contribution(g, event, i) }

  lemma {:induction false} PacketGathers(g: Grammar, event: SourceEvent, packet: seq<Item>)
    ensures PacketFacts(g, event, packet) == Gather(Giving(g, event), packet)
  {
    if packet != [] { PacketGathers(g, event, packet[..|packet| - 1]); }
  }

  lemma GatherAppend(gives: Item -> seq<Fact>, packet: seq<Item>, i: Item)
    ensures Gather(gives, packet + [i]) == Gather(gives, packet) + gives(i)
  {
    assert (packet + [i])[..|packet|] == packet;
  }

  /** How many facts the items under the event's own id contribute. */
  ghost function Repeated(gives: Item -> seq<Fact>, event: SourceEvent, items: seq<Item>): nat {
    if items == [] then 0
    else
      var i := items[|items| - 1];
      Repeated(gives, event, items[..|items| - 1]) + if Of(event, i).id == event.id then |gives(i)| else 0
  }

  lemma GatherLast(gives: Item -> seq<Fact>, event: SourceEvent, items: seq<Item>)
    requires items != []
    ensures var front, i := items[..|items| - 1], items[|items| - 1];
      && Gather(gives, [Itself] + items) == Gather(gives, [Itself] + front) + gives(i)
      && Gather(gives, [Itself] + Kept(event, items))
         == Gather(gives, [Itself] + Kept(event, front)) + if Of(event, i).id != event.id then gives(i) else []
  {
    var front, i := items[..|items| - 1], items[|items| - 1];
    assert [Itself] + items == [Itself] + front + [i];
    GatherAppend(gives, [Itself] + front, i);
    if Of(event, i).id != event.id {
      assert [Itself] + Kept(event, items) == [Itself] + Kept(event, front) + [i];
      GatherAppend(gives, [Itself] + Kept(event, front), i);
    } else {
      assert Kept(event, items) == Kept(event, front);
    }
  }

  lemma {:induction false} RepeatedFacts(gives: Item -> seq<Fact>, event: SourceEvent, items: seq<Item>)
    ensures |Gather(gives, [Itself] + items)| == |Gather(gives, [Itself] + Kept(event, items))| + Repeated(gives, event, items)
    ensures Repeated(gives, event, items) == 0 ==> Gather(gives, [Itself] + items) == Gather(gives, [Itself] + Kept(event, items))
    decreases |items|
  {
    if items == [] {
      assert [Itself] + items == [Itself] + Kept(event, items);
    } else {
      RepeatedFacts(gives, event, items[..|items| - 1]);
      GatherLast(gives, event, items);
    }
  }

  lemma {:induction false} RepeatedWhen(gives: Item -> seq<Fact>, event: SourceEvent, items: seq<Item>)
    requires forall i :: i in items && Of(event, i).id == event.id ==> Of(event, i) == event
    ensures Repeated(gives, event, items) > 0
            <==> (Itself in items && gives(Itself) != []) || (Other(event) in items && gives(Other(event)) != [])
  {
    if items != [] {
      var front, i := items[..|items| - 1], items[|items| - 1];
      assert items == front + [i] && i in items;
      RepeatedWhen(gives, event, front);
    }
  }

  lemma LastAvailableAppend(packet: seq<SourceEvent>, e: SourceEvent)
    requires packet != []
    ensures LastAvailable(packet + [e]) == if LastAvailable(packet) < e.availableAt then e.availableAt else LastAvailable(packet)
  {
    assert (packet + [e])[..|packet|] == packet;
  }

  lemma ValuesAppend(event: SourceEvent, items: seq<Item>, i: Item)
    ensures Values(event, items + [i]) == Values(event, items) + [Of(event, i)]
  {
    assert (items + [i])[..|items|] == items;
  }

  lemma ReceiptLast(event: SourceEvent, items: seq<Item>, i: Item)
    ensures var before, after := LastAvailable([event] + Values(event, items)), LastAvailable([event] + Values(event, items + [i]));
      after == if before < Of(event, i).availableAt then Of(event, i).availableAt else before
  {
    ValuesAppend(event, items, i);
    assert [event] + Values(event, items + [i]) == [event] + Values(event, items) + [Of(event, i)];
    LastAvailableAppend([event] + Values(event, items), Of(event, i));
  }

  /** Copies of the event do not move the packet's last availability. */
  lemma {:induction false} CopiesKeepReceipt(event: SourceEvent, items: seq<Item>)
    requires forall i :: i in items && Of(event, i).id == event.id ==> Of(event, i) == event
    ensures LastAvailable([event] + Values(event, items)) == LastAvailable([event] + Values(event, Kept(event, items)))
    ensures LastAvailable([event] + Values(event, items)) >= event.availableAt
    decreases |items|
  {
    if items == [] {
      assert [event] + Values(event, items) == [event];
    } else {
      var front, i := items[..|items| - 1], items[|items| - 1];
      assert items == front + [i] && i in items;
      CopiesKeepReceipt(event, front);
      ReceiptLast(event, front, i);
      ReceiptLast(event, Kept(event, front), i);
      assert Kept(event, items) == if Of(event, i).id != event.id then Kept(event, front) + [i] else Kept(event, front);
    }
  }

  /** What a recomputation is given for a genuine packet. */
  lemma RecomputesOnKept(event: SourceEvent, prior: seq<Item>, t: int)
    ensures var known := AvailableItems(event, prior, t);
      && Others([event] + Values(event, known), event.id) == Kept(event, known)
      && AvailableItems(event, Kept(event, known), t) == Kept(event, known)
  {
    var known := AvailableItems(event, prior, t);
    OthersAreKept(event, known);
    AvailableItemsHas(event, prior, t);
    KeptHas(event, known);
    AllAvailable(event, Kept(event, known), t);
  }

  lemma DifferWhenRepeated(g: Grammar, event: SourceEvent, known: seq<Item>)
    requires forall i :: i in known && Of(event, i).id == event.id ==> Of(event, i) == event
    ensures var all, without := PacketFacts(g, event, [Itself] + known), PacketFacts(g, event, [Itself] + Kept(event, known));
      all != without <==> RepeatsFacts(g, event, known)
  {
    PacketGathers(g, event, [Itself] + known);
    PacketGathers(g, event, [Itself] + Kept(event, known));
    RepeatedFacts(Giving(g, event), event, known);
    RepeatedWhen(Giving(g, event), event, known);
  }

  /** The event itself stands among the evidence and contributes facts, or an equal copy of it stands
      there and contributes annual revenue. */
  predicate RepeatsFacts(g: Grammar, event: SourceEvent, known: seq<Item>) {
    || (Itself in known && Contribution(g, event, Itself) != [])
    || (Other(event) in known && Contribution(g, event, Other(event)) != [])
  }

  /** A genuine extraction passes recomputation except exactly when the event, or an equal copy of it, was
      available among its own prior evidence and contributed facts there: those were then counted twice. */
  lemma GenuineRevalidates(g: Grammar, event: SourceEvent, t: int, prior: seq<Item>, answer: Option<Answer>,
                           evidence: seq<SourceEvent>, now: int)
    requires t <= now && Delivers(evidence, now, Extract(g, event, t, prior, answer).input)
    ensures var x := Extract(g, event, t, prior, answer);
      var available := AvailableMap(Available(evidence, now));
      && Packet(x.evidence, available) == x.input && |x.evidence| == |x.input|
      && x.event in available && available[x.event] == event
      && (Differs(x, Extract(g, event, t, Others(x.input, event.id), None))
          <==> RepeatsFacts(g, event, AvailableItems(event, prior, t)))
  {
    var x := Extract(g, event, t, prior, answer);
    var known := AvailableItems(event, prior, t);
    assert x.input == [event] + Values(event, known) && event in x.input;
    IdsLength(x.input);
    PacketIsDelivered(x.input, AvailableMap(Available(evidence, now)));
    RecomputesOnKept(event, prior, t);
    ValuesHas(event, known);
    forall i | i in known && Of(event, i).id == event.id ensures Of(event, i) == event { assert Of(event, i) in x.input; }
    DifferWhenRepeated(g, event, known);
    CopiesKeepReceipt(event, known);
  }

  lemma {:induction false} IdsLength(packet: seq<SourceEvent>)
    ensures |Ids(packet)| == |packet|
  {
    if packet != [] { IdsLength(packet[..|packet| - 1]); }
  }

  // ---- A failing input ----

  const MATCH := GuidanceMatch(Revenue, "GAAP", "FY2026", Amount(1.0, 1.0, Million), Amount(2.0, 2.0, Million), (0, 1))

  const RELEASE := SourceEvent("e", "c", Some("i"), 0, 0, None, Some(0), Some(""), true, false, false, None, "")

  /** A grammar that finds one guidance sentence in every text and nothing else. */
  function OneSentence(): Grammar {
    Grammar(_ => [MATCH], _ => [], _ => [], _ => true, _ => true, _ => false, (_, _) => [], (_, _) => [], (_, _, _) => [], "r")
  }

  lemma OneSentenceFacts()
    ensures Contribution(OneSentence(), RELEASE, Itself) == PairOf(RELEASE, MATCH)
    ensures Contribution(OneSentence(), RELEASE, Other(RELEASE)) == []
  {
    assert [MATCH][..0] == [];
    assert GuidanceFacts(RELEASE, [MATCH]) == PairOf(RELEASE, MATCH);
    assert Parse(OneSentence(), RELEASE) == PairOf(RELEASE, MATCH);
    OfRoleNone(PairOf(RELEASE, MATCH), {AnnualRevenue});
  }

  lemma OnePrior(event: SourceEvent, i: Item, now: int)
    requires Of(event, i) == event && AvailableBy(event, now)
    ensures AvailableItems(event, [i], now) == [i] && Values(event, [i]) == [event]
  {
    assert [i][..0] == [];
  }

  lemma MapOfOne(event: SourceEvent)
    ensures AvailableMap([event]) == map[event.id := event]
  {
    assert [event][..0] == [];
  }

  lemma AvailableOne(event: SourceEvent, now: int)
    requires AvailableBy(event, now)
    ensures Available([event], now) == [event]
  {
    assert [event][..0] == [];
  }

  lemma OneDelivered(event: SourceEvent, now: int, packet: seq<SourceEvent>)
    requires AvailableBy(event, now) && forall e :: e in packet ==> e == event
    ensures Delivers([event], now, packet)
    ensures Find(AvailableMap(Available([event], now)), event.id) == Some(event)
  {
    AvailableOne(event, now);
    MapOfOne(event);
  }

  lemma OneRepeats(g: Grammar, event: SourceEvent, i: Item)
    requires Of(event, i) == event
    ensures RepeatsFacts(g, event, [i]) <==> Contribution(g, event, i) != []
  {
    assert i == Itself || i == Other(event);
  }

  lemma OneInput(g: Grammar, event: SourceEvent, i: Item, t: int)
    requires Of(event, i) == event && AvailableBy(event, t)
    ensures var x := Extract(g, event, t, [i], None);
      x.input == [event] + [event] && x.completedAt == t && x.event == event.id
  {
    OnePrior(event, i, t);
  }

  /** An event whose only prior evidence is itself or its copy. */
  lemma OneListed(g: Grammar, event: SourceEvent, i: Item, t: int)
    requires Of(event, i) == event && AvailableBy(event, t)
    ensures var x := Extract(g, event, t, [i], None);
      && (Differs(x, Extract(g, event, t, Others(x.input, event.id), None)) <==> Contribution(g, event, i) != [])
      && x.completedAt == t && Find(AvailableMap(Available([event], t)), x.event) == Some(event)
  {
    OneInput(g, event, i, t);
    OneDelivered(event, t, [event] + [event]);
    OnePrior(event, i, t);
    OneRepeats(g, event, i);
    GenuineRevalidates(g, event, t, [i], None, [event], t);
  }

  /** Any extraction that differs from its recomputation abstains. */
  lemma DifferentAbstains(g: Grammar, gates: Gates, x: Extraction, event: SourceEvent, evidence: seq<SourceEvent>, now: int,
                          seen: set<string>)
    requires Find(AvailableMap(Available(evidence, now)), x.event) == Some(event)
    requires Differs(x, Extract(g, event, x.completedAt, Others(x.input, event.id), None))
    ensures !Decide(g, gates, x, evidence, now, seen).eligible
  {
    if Decide(g, gates, x, evidence, now, seen).eligible {
      EligibleIsRecomputed(g, gates, x, evidence, now, seen);
      assert false;
    }
  }

  /** Extracted with itself as prior evidence, the release abstains when decided; with an equal copy
      instead, which has no annual revenue to repeat, it passes recomputation. */
  lemma ListedAgainstItself(gates: Gates, seen: set<string>)
    ensures var g := OneSentence();
      var x, y := Extract(g, RELEASE, 0, [Itself], None), Extract(g, RELEASE, 0, [Other(RELEASE)], None);
      && Differs(x, Extract(g, RELEASE, 0, Others(x.input, RELEASE.id), None))
      && !Decide(g, gates, x, [RELEASE], 0, seen).eligible
      && !Differs(y, Extract(g, RELEASE, 0, Others(y.input, RELEASE.id), None))
  {
    var g := OneSentence();
    OneSentenceFacts();
    OneListed(g, RELEASE, Itself, 0);
    OneListed(g, RELEASE, Other(RELEASE), 0);
    DifferentAbstains(g, gates, Extract(g, RELEASE, 0, [Itself], None), RELEASE, [RELEASE], 0, seen);
  }
}
