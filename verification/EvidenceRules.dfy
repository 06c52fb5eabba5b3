/** What an extraction takes from its packet and what an eligible decision rules out, item by item. */
module EvidenceRules {
  import opened Orders
  import opened Causality

  lemma {:induction false} OfRoleIs(s: seq<Fact>, roles: set<Role>, f: Fact)
    ensures f in OfRole(s, roles) <==> f in s && f.role in roles
  {
    if s != [] {
      OfRoleIs(s[..|s| - 1], roles, f);
      assert s == s[..|s| - 1] + [s[|s| - 1]];
    }
  }

  // ---- Every fact names the evidence it was read from ----

  ghost predicate ReadFrom(e: SourceEvent, facts: seq<Fact>) {
    forall f :: f in facts ==> f.evidence == e.id && f.availableAt == e.availableAt
  }

  lemma {:induction false} GuidanceReadFrom(e: SourceEvent, ms: seq<GuidanceMatch>)
    ensures ReadFrom(e, GuidanceFacts(e, ms))
  {
    if ms != [] { GuidanceReadFrom(e, ms[..|ms| - 1]); }
  }

  lemma {:induction false} AnnualReadFrom(e: SourceEvent, ms: seq<AnnualMatch>)
    ensures ReadFrom(e, AnnualFacts(e, ms))
  {
    if ms != [] { AnnualReadFrom(e, ms[..|ms| - 1]); }
  }

  lemma {:induction false} ContractReadFrom(e: SourceEvent, ms: seq<ContractMatch>)
    ensures ReadFrom(e, ContractFacts(e, ms))
  {
    if ms != [] { ContractReadFrom(e, ms[..|ms| - 1]); }
  }

  lemma ParseReadsFrom(g: Grammar, e: SourceEvent)
    ensures ReadFrom(e, Parse(g, e))
  {
    GuidanceReadFrom(e, g.guidance(TextOf(e)));
    AnnualReadFrom(e, g.annual(TextOf(e)));
    ContractReadFrom(e, g.contracts(TextOf(e)));
  }

  /** The fact a match states: its amount, its span, and nothing of any other match. */
  ghost predicate States(f: Fact, e: SourceEvent, metric: Metric, role: Role, a: Amount, basis: string,
                         period: Option<string>, span: (int, int))
  {
    && f.metric == metric && f.role == role && f.low == a.low && f.high == a.high && f.scale == a.scale
    && f.basis == basis && f.period == period && f.span == span && f.evidence == e.id && f.availableAt == e.availableAt
  }

  /** The i-th guidance sentence gives its old amount as prior and its new amount as new guidance. */
  lemma {:induction false} GuidanceStates(e: SourceEvent, ms: seq<GuidanceMatch>, i: nat)
    requires i < |ms|
    ensures var facts, m := GuidanceFacts(e, ms), ms[i];
      && |facts| == 2 * |ms|
      && States(facts[2 * i], e, m.metric, PriorGuidance, m.prior, m.basis, Some(m.period), m.span)
      && States(facts[2 * i + 1], e, m.metric, NewGuidance, m.new_, m.basis, Some(m.period), m.span)
  {
    var front := ms[..|ms| - 1];
    if front == [] {
      assert GuidanceFacts(e, front) == [];
    } else {
      GuidanceStates(e, front, if i < |front| then i else 0);
    }
  }

  lemma {:induction false} AnnualStates(e: SourceEvent, ms: seq<AnnualMatch>, i: nat)
    requires i < |ms|
    ensures var facts, m := AnnualFacts(e, ms), ms[i];
      && |facts| == |ms|
      && States(facts[i], e, Revenue, AnnualRevenue, m.value, "GAAP", Some(m.period), m.span)
  {
    var front := ms[..|ms| - 1];
    if front != [] { AnnualStates(e, front, if i < |front| then i else 0); }
  }

  /** The i-th contract sentence gives its value and its duration in months. */
  lemma {:induction false} ContractStates(e: SourceEvent, ms: seq<ContractMatch>, i: nat)
    requires i < |ms|
    ensures var facts, m := ContractFacts(e, ms), ms[i];
      && |facts| == 2 * |ms|
      && States(facts[2 * i], e, ContractValue, ContractRole, m.value, "contractual", None, m.span)
      && States(facts[2 * i + 1], e, ContractMonths, ContractRole, Amount(m.months, m.months, Months), "contractual", None, m.span)
  {
    var front := ms[..|ms| - 1];
    if front == [] {
      assert ContractFacts(e, front) == [];
    } else {
      ContractStates(e, front, if i < |front| then i else 0);
    }
  }

  /** Evidence whose facts count: the event's own issuer, a verified primary source, unaltered content and
      readable numbers. */
  ghost predicate Trusted(g: Grammar, event: SourceEvent, e: SourceEvent) {
    e.issuer == event.issuer && g.verified(e) && (e.content.Some? ==> e.hashMatches) && g.numbersParse(e)
  }

  ghost predicate Contributes(g: Grammar, event: SourceEvent, i: Item, f: Fact) {
    var e := if i.Itself? then event else i.item;
    Trusted(g, event, e) && f in Parse(g, e) && (i.Other? ==> f.role == AnnualRevenue)
  }

  lemma ContributionIs(g: Grammar, event: SourceEvent, i: Item, f: Fact)
    ensures f in Contribution(g, event, i) <==> Contributes(g, event, i, f)
  {
    OfRoleIs(Parse(g, Of(event, i)), {AnnualRevenue}, f);
  }

  lemma {:induction false} PacketFactsAre(g: Grammar, event: SourceEvent, packet: seq<Item>, f: Fact)
    ensures f in PacketFacts(g, event, packet) <==> exists i :: i in packet && Contributes(g, event, i, f)
  {
    if packet != [] {
      var last := packet[|packet| - 1];
      PacketFactsAre(g, event, packet[..|packet| - 1], f);
      ContributionIs(g, event, last, f);
      assert packet == packet[..|packet| - 1] + [last];
    }
  }

  lemma {:induction false} AvailableItemsAre(event: SourceEvent, items: seq<Item>, now: int, i: Item)
    ensures i in AvailableItems(event, items, now)
            <==> i in items && var e := Of(event, i); e.availableAt <= now && e.receivedAt <= now
  {
    if items != [] {
      AvailableItemsAre(event, items[..|items| - 1], now, i);
      assert items == items[..|items| - 1] + [items[|items| - 1]];
    }
  }

  ghost predicate InPacket(event: SourceEvent, prior: seq<Item>, t: int, i: Item) {
    i.Itself? || (i in prior && i.item.availableAt <= t && i.item.receivedAt <= t)
  }

  /** The facts of an extraction are exactly those read from the event itself and the annual revenues read
      from prior evidence that was there by then, as long as that evidence can be trusted; each names it. */
  lemma FactsAreFromTrustedEvidence(g: Grammar, event: SourceEvent, t: int, prior: seq<Item>, answer: Option<Answer>, f: Fact)
    ensures f in Extract(g, event, t, prior, answer).facts
            <==> exists i :: InPacket(event, prior, t, i) && Contributes(g, event, i, f)
    ensures forall i :: Contributes(g, event, i, f) ==> f.evidence == Of(event, i).id && f.availableAt == Of(event, i).availableAt
  {
    var packet := [Itself] + AvailableItems(event, prior, t);
    PacketFactsAre(g, event, packet, f);
    forall i ensures i in packet <==> InPacket(event, prior, t, i) { AvailableItemsAre(event, prior, t, i); }
    forall i | Contributes(g, event, i, f)
      ensures f.evidence == Of(event, i).id && f.availableAt == Of(event, i).availableAt
    {
      ParseReadsFrom(g, Of(event, i));
    }
  }

  ghost predicate Has(facts: seq<Fact>, role: Role) { exists f :: f in facts && f.role == role }

  ghost predicate HasMetric(facts: seq<Fact>, metric: Metric) { exists f :: f in facts && f.metric == metric }

  /** The kind of an extraction follows from which facts it has; an event with both hypotheses, or with
      neither and no bad news, is unclassified, and both hypotheses at once are an error. */
  lemma KindFollowsFacts(g: Grammar, event: SourceEvent, t: int, prior: seq<Item>, answer: Option<Answer>)
    ensures var x := Extract(g, event, t, prior, answer);
      var guided := Has(x.facts, PriorGuidance) || Has(x.facts, NewGuidance);
      var contracted := HasMetric(x.facts, ContractValue);
      && (x.kind == EarningsAndGuidance <==> guided && !contracted)
      && (x.kind == ValuedContract <==> contracted && !guided)
      && (x.kind == Risk <==> !guided && !contracted && (event.retraction || g.negative(event)))
      && (guided && contracted ==> x.contradictions != [])
      && (x.kind == UnclassifiedEvent && !guided ==> x.missing != [])
  {
    var facts := Extract(g, event, t, prior, answer).facts;
    var guidance := OfRole(facts, {PriorGuidance, NewGuidance});
    forall f ensures f in guidance <==> f in facts && f.role in {PriorGuidance, NewGuidance} { OfRoleIs(facts, {PriorGuidance, NewGuidance}, f); }
    if guidance != [] { assert guidance[0] in guidance; }
    if HasContract(facts) {
      var i :| 0 <= i < |facts| && facts[i].metric == ContractValue;
      assert facts[i] in facts;
    }
    DedupeEmpty(g.sourceMissing(event, t) + ["supported_quantitative_event"]);
    if guidance != [] && HasContract(facts) {
      DedupeEmpty(g.sourceErrors(event, t) + PacketErrors(g, event, [Itself] + AvailableItems(event, prior, t))
                  + ["multiple_hypotheses_in_one_event"] + g.claimErrors(event, facts, t));
    }
  }

  lemma {:induction false} LastAvailableIsGreatest(packet: seq<SourceEvent>)
    requires packet != []
    ensures forall e :: e in packet ==> e.availableAt <= LastAvailable(packet)
    ensures exists e :: e in packet && e.availableAt == LastAvailable(packet)
  {
    var last := packet[|packet| - 1];
    assert packet == packet[..|packet| - 1] + [last];
    if |packet| > 1 { LastAvailableIsGreatest(packet[..|packet| - 1]); }
  }

  /** An extraction is available as soon as the last of its packet is, names the event's cluster and issuer, and
      abstains on a model answer that is malformed or differs from what was extracted. */
  lemma ExtractionHeader(g: Grammar, event: SourceEvent, t: int, prior: seq<Item>, answer: Option<Answer>)
    ensures var x := Extract(g, event, t, prior, answer);
      && x.event == event.id && x.cluster == event.cluster && x.issuer == event.issuer && x.completedAt == t
      && event in x.input && (forall e :: e in x.input ==> e.availableAt <= x.availableAt)
      && (exists e :: e in x.input && e.availableAt == x.availableAt)
      && (answer.Some? && (answer.value.Malformed? || answer.value.issuer != event.issuer || answer.value.kind != x.kind
                           || answer.value.facts != x.facts || answer.value.missing != x.missing)
          ==> x.contradictions != [])
  {
    LastAvailableIsGreatest([event] + Values(event, AvailableItems(event, prior, t)));
  }

  // ---- Eligible decisions ----

  /** Nothing about a prior item speaks against it. */
  ghost predicate CleanPrior(g: Grammar, event: SourceEvent, e: SourceEvent) {
    && Trusted(g, event, e)
    && e.mappingAt.Some? && e.mappingAt.value <= e.availableAt
    && !e.retraction && !e.correction && e.revisionOf.None?
  }

  lemma {:induction false} NoPacketErrors(g: Grammar, event: SourceEvent, packet: seq<Item>, i: Item)
    requires PacketErrors(g, event, packet) == [] && i in packet && i.Other?
    ensures CleanPrior(g, event, i.item)
  {
    var last := packet[|packet| - 1];
    if i != last {
      assert packet == packet[..|packet| - 1] + [last];
      NoPacketErrors(g, event, packet[..|packet| - 1], i);
    }
  }

  lemma CleanExtraction(g: Grammar, event: SourceEvent, t: int, prior: seq<Item>, i: Item)
    requires Extract(g, event, t, prior, None).contradictions == [] && i in AvailableItems(event, prior, t) && i.Other?
    ensures CleanPrior(g, event, i.item)
  {
    var packet := [Itself] + AvailableItems(event, prior, t);
    var facts := PacketFacts(g, event, packet);
    DedupeEmpty(g.sourceErrors(event, t) + PacketErrors(g, event, packet)
      + (if Guidance(facts) != [] && HasContract(facts) then ["multiple_hypotheses_in_one_event"] else [])
      + g.claimErrors(event, facts, t));
    NoPacketErrors(g, event, packet, i);
  }

  lemma {:induction false} OthersAre(packet: seq<SourceEvent>, id: string, e: SourceEvent)
    ensures Other(e) in Others(packet, id) <==> e in packet && e.id != id
    ensures Itself !in Others(packet, id)
  {
    if packet != [] {
      OthersAre(packet[..|packet| - 1], id, e);
      assert packet == packet[..|packet| - 1] + [packet[|packet| - 1]];
    }
  }

  ghost predicate Concerns(item: SourceEvent, x: Extraction) {
    item.issuer == x.issuer
    && (item.cluster == x.cluster || (item.revisionOf.Some? && item.revisionOf.value in x.evidence))
  }

  /** What an eligible decision has ruled out: a cluster decided before, a correction or retraction of the
      event's cluster or evidence by the same issuer, and, among the packet's other items, anything from
      another issuer, unverified, altered, unreadable, mapped too late, corrected or retracted. */
  lemma EligibleEvidenceIsClean(g: Grammar, gates: Gates, x: Extraction, evidence: seq<SourceEvent>, now: int, seen: set<string>)
    requires Decide(g, gates, x, evidence, now, seen).eligible
    ensures var available := AvailableMap(Available(evidence, now));
      && x.cluster !in seen && x.event in available
      && (forall e :: e in x.input && e.id != available[x.event].id && AvailableBy(e, x.completedAt) ==>
            CleanPrior(g, available[x.event], e))
      && (forall id :: id in available && Concerns(available[id], x) ==>
            !available[id].retraction && !available[id].correction && available[id].revisionOf.None?)
  {
    EligibleIsRecomputed(g, gates, x, evidence, now, seen);
    NotSeen(g, gates, x, evidence, now, seen);
    var available := AvailableMap(Available(evidence, now));
    var event := available[x.event];
    forall e | e in x.input && e.id != event.id && AvailableBy(e, x.completedAt) ensures CleanPrior(g, event, e) {
      OthersAre(x.input, event.id, e);
      AvailableItemsAre(event, Others(x.input, event.id), x.completedAt, Other(e));
      CleanExtraction(g, event, x.completedAt, Others(x.input, event.id), Other(e));
    }
    forall id | id in available ensures !Corrects(available[id], x) {}
  }

  lemma NotSeen(g: Grammar, gates: Gates, x: Extraction, evidence: seq<SourceEvent>, now: int, seen: set<string>)
    requires Decide(g, gates, x, evidence, now, seen).eligible
    ensures x.cluster !in seen
  {
    var available := AvailableMap(Available(evidence, now));
    var revenues := OfRole(x.facts, {AnnualRevenue});
    var reference := if revenues == [] then None else Find(available, revenues[0].evidence);
    DedupeEmpty(x.contradictions + x.missing + EvidenceReasons(g, x, available, now)
      + (if x.cluster in seen then ["duplicate_event_cluster"] else []) + gates(x, Find(available, x.event), reference, now));
  }
}
