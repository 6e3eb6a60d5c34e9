/** What the entity planner adds to a formed graph: mention nodes, identities and their proof. */
module EntityGraph {
  import opened Prelude
  import opened Contracts
  import opened Entities
  import Planner

  /** A record of the base, as it was, or one the entity planner adds. */
  datatype Record = FormedRecord(entry: Planner.Entry) | MentionRecord(entry_: MentionEntry)

  datatype Edge =
    | FormedEdge(relation: Planner.Relation)
    | SourceEdge(origin: string, target: string, evidence: string, at: Clock, sequence: nat)
    | IdentityEdge(origin: string, target: string, why: string, evidence: string, at: Clock, sequence: nat)

  datatype Quote =
    | FormedQuote(proof: Planner.Proof)
    | MentionQuote(supports: string, source: string, text: string, time: Clock)
    | IdentityQuote(proposal: Identity, index: nat, left: string, right: string, source: string, text: string, time: Clock)

  datatype Graph = Graph(entries: seq<Record>, edges: seq<Edge>, quotes: seq<Quote>)

  /** The accepted identities and what they are read against. */
  datatype Reading = Reading(about: string, registry: map<string, string>, sources: seq<Source>, digest: Interval -> string)

  function TimeOf(sourceId: string, reading: Reading): Clock {
    Planner.ClockOf(reading.sources, sourceId)
  }

  /** The k-th mention's `derived_from`, and the quote that supports it. */
  function EdgeOfNode(entry: MentionEntry, k: nat, reading: Reading): Edge {
    SourceEdge(entry.id, entry.sourceRef, entry.text, TimeOf(entry.sourceId, reading), k + 1)
  }

  function QuoteOfNode(entry: MentionEntry, reading: Reading): Quote {
    MentionQuote(entry.id, entry.sourceRef, entry.text, TimeOf(entry.sourceId, reading))
  }

  predicate Cited(d: Identity, registry: map<string, string>) {
    && d.left.sourceId in registry && d.right.sourceId in registry && d.citations != []
    && forall c :: c in d.citations ==> c.sourceId in registry
  }

  /** The i-th identity's `same_entity_as`, dated by the latest source it cites. */
  function EdgeOfIdentity(d: Identity, i: nat, reading: Reading): Edge
    requires Cited(d, reading.registry)
  {
    IdentityEdge(NodeRef(reading.about, d.left, reading.registry, reading.digest),
                 NodeRef(reading.about, d.right, reading.registry, reading.digest), d.why,
                 Planner.Join(Planner.QuoteTexts(d.citations)), Planner.Reported(d.citations, reading.sources), i + 1)
  }

  function QuoteOfIdentity(d: Identity, c: nat, reading: Reading): Quote
    requires Cited(d, reading.registry) && c < |d.citations|
  {
    IdentityQuote(d, c, NodeRef(reading.about, d.left, reading.registry, reading.digest),
                  NodeRef(reading.about, d.right, reading.registry, reading.digest), reading.registry[d.citations[c].sourceId],
                  d.citations[c].quote, TimeOf(d.citations[c].sourceId, reading))
  }

  predicate AllCited(accepted: seq<Identity>, registry: map<string, string>) {
    forall i :: 0 <= i < |accepted| ==> Cited(accepted[i], registry)
  }

  /** What the boundary accepts cites registered originals only. */
  lemma ProvedCited(d: Identity, p: Proposal, sources: seq<Source>, registry: map<string, string>)
    requires Proved(d, p, sources) && forall s :: s in sources ==> s.id in registry
    ensures Cited(d, registry)
  {
    ProvedResolvable(d, p, sources, registry);
    SortedCites(p.citations);
    forall c | c in d.citations
      ensures c.sourceId in registry
    {
      var i :| 0 <= i < |p.citations| && p.citations[i] == c;
      assert Lookup(sources, c.sourceId).value in sources;
    }
  }

  // ---- what is added, read off the nodes and the identities ----

  predicate OfSomeNode(edge: Edge, mentions: seq<MentionEntry>, reading: Reading) {
    exists k :: 0 <= k < |mentions| && edge == EdgeOfNode(mentions[k], k, reading)
  }

  predicate OfSomeIdentity(edge: Edge, accepted: seq<Identity>, reading: Reading)
    requires AllCited(accepted, reading.registry)
  {
    exists i :: 0 <= i < |accepted| && edge == EdgeOfIdentity(accepted[i], i, reading)
  }

  /** The edges added are those of the nodes and of the identities, each once. */
  ghost predicate EdgesAre(edges: seq<Edge>, mentions: seq<MentionEntry>, accepted: seq<Identity>, reading: Reading)
    requires AllCited(accepted, reading.registry)
  {
    && |edges| == |mentions| + |accepted|
    && forall e :: e in edges <==> OfSomeNode(e, mentions, reading) || OfSomeIdentity(e, accepted, reading)
  }

  predicate QuotesNode(quote: Quote, mentions: seq<MentionEntry>, reading: Reading) {
    exists k :: 0 <= k < |mentions| && quote == QuoteOfNode(mentions[k], reading)
  }

  predicate QuotesOne(quote: Quote, d: Identity, n: nat, reading: Reading)
    requires Cited(d, reading.registry) && n <= |d.citations|
  {
    exists c :: 0 <= c < n && quote == QuoteOfIdentity(d, c, reading)
  }

  predicate QuotesIdentity(quote: Quote, accepted: seq<Identity>, reading: Reading)
    requires AllCited(accepted, reading.registry)
  {
    exists i :: 0 <= i < |accepted| && QuotesOne(quote, accepted[i], |accepted[i].citations|, reading)
  }

  ghost predicate QuotesAre(quotes: seq<Quote>, mentions: seq<MentionEntry>, accepted: seq<Identity>, reading: Reading)
    requires AllCited(accepted, reading.registry)
  {
    forall q :: q in quotes <==> QuotesNode(q, mentions, reading) || QuotesIdentity(q, accepted, reading)
  }

  lemma EdgesOfNode(edges: seq<Edge>, mentions: seq<MentionEntry>, entry: MentionEntry, accepted: seq<Identity>, reading: Reading)
    requires AllCited(accepted, reading.registry) && EdgesAre(edges, mentions, accepted, reading)
    ensures EdgesAre(edges + [EdgeOfNode(entry, |mentions|, reading)], mentions + [entry], accepted, reading)
  {
    var more, all := edges + [EdgeOfNode(entry, |mentions|, reading)], mentions + [entry];
    assert all[|mentions|] == entry && forall k :: 0 <= k < |mentions| ==> all[k] == mentions[k];
    forall e
      ensures e in more <==> OfSomeNode(e, all, reading) || OfSomeIdentity(e, accepted, reading)
    {
      assert OfSomeNode(e, all, reading) <==> OfSomeNode(e, mentions, reading) || e == EdgeOfNode(entry, |mentions|, reading) by {
        if OfSomeNode(e, mentions, reading) {
          var k :| 0 <= k < |mentions| && e == EdgeOfNode(mentions[k], k, reading);
          assert e == EdgeOfNode(all[k], k, reading);
        }
        if e == EdgeOfNode(entry, |mentions|, reading) { assert e == EdgeOfNode(all[|mentions|], |mentions|, reading); }
      }
    }
  }

  lemma QuotesOfNode(quotes: seq<Quote>, mentions: seq<MentionEntry>, entry: MentionEntry, accepted: seq<Identity>, reading: Reading)
    requires AllCited(accepted, reading.registry) && QuotesAre(quotes, mentions, accepted, reading)
    ensures QuotesAre(quotes + [QuoteOfNode(entry, reading)], mentions + [entry], accepted, reading)
  {
    var more, all := quotes + [QuoteOfNode(entry, reading)], mentions + [entry];
    assert all[|mentions|] == entry && forall k :: 0 <= k < |mentions| ==> all[k] == mentions[k];
    forall q
      ensures q in more <==> QuotesNode(q, all, reading) || QuotesIdentity(q, accepted, reading)
    {
      assert QuotesNode(q, all, reading) <==> QuotesNode(q, mentions, reading) || q == QuoteOfNode(entry, reading) by {
        if QuotesNode(q, mentions, reading) {
          var k :| 0 <= k < |mentions| && q == QuoteOfNode(mentions[k], reading);
          assert q == QuoteOfNode(all[k], reading);
        }
        if q == QuoteOfNode(entry, reading) { assert q == QuoteOfNode(all[|mentions|], reading); }
      }
    }
  }

  lemma EdgesOfIdentity(edges: seq<Edge>, mentions: seq<MentionEntry>, accepted: seq<Identity>, d: Identity, reading: Reading)
    requires AllCited(accepted, reading.registry) && Cited(d, reading.registry) && EdgesAre(edges, mentions, accepted, reading)
    ensures AllCited(accepted + [d], reading.registry)
    ensures EdgesAre(edges + [EdgeOfIdentity(d, |accepted|, reading)], mentions, accepted + [d], reading)
  {
    var more, all := edges + [EdgeOfIdentity(d, |accepted|, reading)], accepted + [d];
    assert all[|accepted|] == d && forall i :: 0 <= i < |accepted| ==> all[i] == accepted[i];
    forall e
      ensures e in more <==> OfSomeNode(e, mentions, reading) || OfSomeIdentity(e, all, reading)
    {
      assert OfSomeIdentity(e, all, reading) <==> OfSomeIdentity(e, accepted, reading) || e == EdgeOfIdentity(d, |accepted|, reading) by {
        if OfSomeIdentity(e, accepted, reading) {
          var i :| 0 <= i < |accepted| && e == EdgeOfIdentity(accepted[i], i, reading);
          assert e == EdgeOfIdentity(all[i], i, reading);
        }
        if e == EdgeOfIdentity(d, |accepted|, reading) { assert e == EdgeOfIdentity(all[|accepted|], |accepted|, reading); }
      }
    }
  }

  /** The quotes of one identity, appended one by one. */
  ghost predicate QuotesWith(quotes: seq<Quote>, mentions: seq<MentionEntry>, accepted: seq<Identity>, d: Identity, n: nat, reading: Reading)
    requires AllCited(accepted, reading.registry) && Cited(d, reading.registry) && n <= |d.citations|
  {
    forall q :: q in quotes <==>
      QuotesNode(q, mentions, reading) || QuotesIdentity(q, accepted, reading) || QuotesOne(q, d, n, reading)
  }

  lemma QuotesOfIdentity(quotes: seq<Quote>, mentions: seq<MentionEntry>, accepted: seq<Identity>, d: Identity, reading: Reading)
    requires AllCited(accepted, reading.registry) && Cited(d, reading.registry) && AllCited(accepted + [d], reading.registry)
    requires QuotesWith(quotes, mentions, accepted, d, |d.citations|, reading)
    ensures QuotesAre(quotes, mentions, accepted + [d], reading)
  {
    var all := accepted + [d];
    assert all[|accepted|] == d && forall i :: 0 <= i < |accepted| ==> all[i] == accepted[i];
    forall q
      ensures QuotesIdentity(q, all, reading) <==> QuotesIdentity(q, accepted, reading) || QuotesOne(q, d, |d.citations|, reading)
    {
      if QuotesIdentity(q, accepted, reading) {
        var i :| 0 <= i < |accepted| && QuotesOne(q, accepted[i], |accepted[i].citations|, reading);
        assert QuotesOne(q, all[i], |all[i].citations|, reading);
      }
      if QuotesOne(q, d, |d.citations|, reading) { assert QuotesOne(q, all[|accepted|], |all[|accepted|].citations|, reading); }
    }
  }

  /** The nodes new since `from`, each with its source edge and its quote. */
  method AddNodes(edges: seq<Edge>, quotes: seq<Quote>, from: nat, mentions: seq<MentionEntry>, ghost accepted: seq<Identity>,
                  reading: Reading)
    returns (edges': seq<Edge>, quotes': seq<Quote>)
    requires AllCited(accepted, reading.registry) && from <= |mentions|
    requires EdgesAre(edges, mentions[..from], accepted, reading) && QuotesAre(quotes, mentions[..from], accepted, reading)
    ensures EdgesAre(edges', mentions, accepted, reading) && QuotesAre(quotes', mentions, accepted, reading)
  {
    edges', quotes' := edges, quotes;
    for k := from to |mentions|
      invariant EdgesAre(edges', mentions[..k], accepted, reading) && QuotesAre(quotes', mentions[..k], accepted, reading)
    {
      TakeSnoc(mentions, k);
      EdgesOfNode(edges', mentions[..k], mentions[k], accepted, reading);
      QuotesOfNode(quotes', mentions[..k], mentions[k], accepted, reading);
      edges', quotes' := edges' + [EdgeOfNode(mentions[k], k, reading)], quotes' + [QuoteOfNode(mentions[k], reading)];
    }
    TakeAll(mentions);
  }

  /** The identity and its quotes. */
  method AddIdentity(edges: seq<Edge>, quotes: seq<Quote>, ghost mentions: seq<MentionEntry>, ghost accepted: seq<Identity>, i: nat,
                     d: Identity, reading: Reading)
    returns (edges': seq<Edge>, quotes': seq<Quote>)
    requires AllCited(accepted, reading.registry) && Cited(d, reading.registry) && i == |accepted|
    requires EdgesAre(edges, mentions, accepted, reading) && QuotesAre(quotes, mentions, accepted, reading)
    ensures AllCited(accepted + [d], reading.registry)
    ensures EdgesAre(edges', mentions, accepted + [d], reading) && QuotesAre(quotes', mentions, accepted + [d], reading)
  {
    EdgesOfIdentity(edges, mentions, accepted, d, reading);
    edges', quotes' := edges + [EdgeOfIdentity(d, i, reading)], quotes;
    for c := 0 to |d.citations|
      invariant QuotesWith(quotes', mentions, accepted, d, c, reading)
    {
      QuotesOneMore(quotes', mentions, accepted, d, c, reading);
      quotes' := quotes' + [QuoteOfIdentity(d, c, reading)];
    }
    QuotesOfIdentity(quotes', mentions, accepted, d, reading);
  }

  lemma QuotesOneMore(quotes: seq<Quote>, mentions: seq<MentionEntry>, accepted: seq<Identity>, d: Identity, c: nat, reading: Reading)
    requires AllCited(accepted, reading.registry) && Cited(d, reading.registry) && c < |d.citations|
    requires QuotesWith(quotes, mentions, accepted, d, c, reading)
    ensures QuotesWith(quotes + [QuoteOfIdentity(d, c, reading)], mentions, accepted, d, c + 1, reading)
  {
    forall q
      ensures QuotesOne(q, d, c + 1, reading) <==> QuotesOne(q, d, c, reading) || q == QuoteOfIdentity(d, c, reading)
    {
    }
  }

  // ---- the whole plan ----

  function Kept(base: Planner.Graph): (g: Graph)
    ensures |g.entries| == |base.entries| && forall i :: 0 <= i < |base.entries| ==> g.entries[i] == FormedRecord(base.entries[i])
    ensures |g.edges| == |base.relations| && forall i :: 0 <= i < |base.relations| ==> g.edges[i] == FormedEdge(base.relations[i])
    ensures |g.quotes| == |base.evidence| && forall i :: 0 <= i < |base.evidence| ==> g.quotes[i] == FormedQuote(base.evidence[i])
  {
    Graph(seq(|base.entries|, i requires 0 <= i < |base.entries| => FormedRecord(base.entries[i])),
          seq(|base.relations|, i requires 0 <= i < |base.relations| => FormedEdge(base.relations[i])),
          seq(|base.evidence|, i requires 0 <= i < |base.evidence| => FormedQuote(base.evidence[i])))
  }

  function Mentioned(mentions: seq<MentionEntry>): (r: seq<Record>)
    ensures |r| == |mentions| && forall i :: 0 <= i < |r| ==> r[i] == MentionRecord(mentions[i])
  {
    seq(|mentions|, i requires 0 <= i < |mentions| => MentionRecord(mentions[i]))
  }

  ghost predicate Plannable(accepted: seq<Identity>, reading: Reading) {
    Bindable(accepted, reading.registry, reading.digest) && AllCited(accepted, reading.registry)
  }

  /** The graph is the base, record by record as it was, followed by what these identities add. */
  ghost predicate Augments(g: Graph, base: Planner.Graph, mentions: seq<MentionEntry>, accepted: seq<Identity>, reading: Reading)
    requires Plannable(accepted, reading)
  {
    && NodesAre(mentions, Ends(accepted), reading.about, reading.registry, reading.digest)
    && g.entries == Kept(base).entries + Mentioned(mentions)
    && Kept(base).edges <= g.edges && EdgesAre(g.edges[|base.relations|..], mentions, accepted, reading)
    && Kept(base).quotes <= g.quotes && QuotesAre(g.quotes[|base.evidence|..], mentions, accepted, reading)
  }

  /** What was added some way through the identities. */
  ghost predicate Added(mentions: seq<MentionEntry>, edges: seq<Edge>, quotes: seq<Quote>, done: seq<Identity>, reading: Reading) {
    && AllCited(done, reading.registry) && Registered(Ends(done), reading.registry)
    && NodesAre(mentions, Ends(done), reading.about, reading.registry, reading.digest)
    && EdgesAre(edges, mentions, done, reading) && QuotesAre(quotes, mentions, done, reading)
  }

  /** One identity: its two nodes, where they are new, and then the identity itself. */
  method AddOne(mentions: seq<MentionEntry>, edges: seq<Edge>, quotes: seq<Quote>, accepted: seq<Identity>, i: nat, reading: Reading)
    returns (r: Option<seq<MentionEntry>>, edges': seq<Edge>, quotes': seq<Quote>)
    requires Plannable(accepted, reading) && i < |accepted| && Added(mentions, edges, quotes, accepted[..i], reading)
    ensures r.None? ==> KindsClash(Ends(accepted))
    ensures r.Some? ==> Added(r.value, edges', quotes', accepted[..i + 1], reading)
  {
    edges', quotes' := edges, quotes;
    r := BindOne(mentions, accepted, i, reading.about, reading.registry, reading.digest);
    if r.None? {
      return;
    }
    assert r.value[..|mentions|] == mentions;
    edges', quotes' := AddNodes(edges, quotes, |mentions|, r.value, accepted[..i], reading);
    edges', quotes' := AddIdentity(edges', quotes', r.value, accepted[..i], i, accepted[i], reading);
    TakeSnoc(accepted, i);
  }

  /** One binding for each of the first n identities, in order. */
  predicate Binds(bindings: seq<Binding>, accepted: seq<Identity>, n: nat, reading: Reading)
    requires n <= |accepted| && AllResolvable(accepted, reading.registry)
  {
    && |bindings| == n
    && forall i :: 0 <= i < n ==> bindings[i] == BindingOf(accepted[i], reading.about, reading.registry, reading.digest)
  }

  lemma NothingAdded(reading: Reading)
    ensures Added([], [], [], [], reading)
  {
    assert Ends([]) == {};
  }

  /** `compile_plan` past its checks: refused exactly when one occurrence is given two kinds; otherwise
      nothing of the base is changed, moved or dropped, and what is added is exactly the nodes of the
      identities' ends, each derived from its original, and the identities with all their quotes. */
  method Augment(base: Planner.Graph, accepted: seq<Identity>, reading: Reading)
    returns (r: Option<(Graph, seq<Binding>)>, ghost mentions: seq<MentionEntry>)
    requires Plannable(accepted, reading)
    ensures r.None? <==> KindsClash(Ends(accepted))
    ensures r.Some? ==> Augments(r.value.0, base, mentions, accepted, reading) && Binds(r.value.1, accepted, |accepted|, reading)
  {
    var nodes: seq<MentionEntry>, edges: seq<Edge>, quotes: seq<Quote>, bindings: seq<Binding> := [], [], [], [];
    NothingAdded(reading);
    for i := 0 to |accepted|
      invariant Added(nodes, edges, quotes, accepted[..i], reading) && Binds(bindings, accepted, i, reading)
    {
      var more;
      more, edges, quotes := AddOne(nodes, edges, quotes, accepted, i, reading);
      if more.None? {
        return None, nodes;
      }
      assert accepted[i] in accepted;
      nodes, bindings := more.value, bindings + [BindingOf(accepted[i], reading.about, reading.registry, reading.digest)];
    }
    TakeAll(accepted);
    NoClash(nodes, Ends(accepted), reading.about, reading.registry, reading.digest);
    var kept := Kept(base);
    var g := Graph(kept.entries + Mentioned(nodes), kept.edges + edges, kept.quotes + quotes);
    assert g.edges[|base.relations|..] == edges && g.quotes[|base.evidence|..] == quotes;
    return Some((g, bindings)), nodes;
  }

  // ---- what is added is grounded in what is there ----

  predicate HasMention(g: Graph, ref: string) {
    exists i :: 0 <= i < |g.entries| && g.entries[i].MentionRecord? && g.entries[i].entry_.id == ref
  }

  lemma NodeIsThere(g: Graph, base: Planner.Graph, mentions: seq<MentionEntry>, accepted: seq<Identity>, reading: Reading, k: nat)
    requires Plannable(accepted, reading) && Augments(g, base, mentions, accepted, reading) && k < |mentions|
    ensures HasMention(g, mentions[k].id)
  {
    assert g.entries[|base.entries| + k] == MentionRecord(mentions[k]);
  }

  lemma EndIsThere(g: Graph, base: Planner.Graph, mentions: seq<MentionEntry>, accepted: seq<Identity>, reading: Reading, x: End)
    requires Plannable(accepted, reading) && Augments(g, base, mentions, accepted, reading) && x in Ends(accepted)
    ensures HasMention(g, NodeRef(reading.about, x.mention, reading.registry, reading.digest))
  {
    var ref := NodeRef(reading.about, x.mention, reading.registry, reading.digest);
    var k :| 0 <= k < |mentions| && mentions[k].id == ref && mentions[k].kind == x.kind;
    NodeIsThere(g, base, mentions, accepted, reading, k);
  }

  /** Every added edge starts at a mention that is there; it ends at the registered original of that
      mention, or at another mention that is there. */
  lemma EdgesGrounded(g: Graph, base: Planner.Graph, mentions: seq<MentionEntry>, accepted: seq<Identity>, reading: Reading, e: Edge)
    requires Plannable(accepted, reading) && Augments(g, base, mentions, accepted, reading) && e in g.edges && !e.FormedEdge?
    ensures HasMention(g, e.origin)
    ensures e.SourceEdge? ==> e.target in reading.registry.Values
    ensures e.IdentityEdge? ==> HasMention(g, e.target) && e.origin != e.target
  {
    var added := g.edges[|base.relations|..];
    assert g.edges == Kept(base).edges + added;
    assert e in added;
    if OfSomeNode(e, mentions, reading) {
      var k :| 0 <= k < |mentions| && e == EdgeOfNode(mentions[k], k, reading);
      NodeIsThere(g, base, mentions, accepted, reading, k);
      assert EndOfSome(mentions[k], Ends(accepted), reading.about, reading.registry, reading.digest);
    } else {
      var i :| 0 <= i < |accepted| && e == EdgeOfIdentity(accepted[i], i, reading);
      var d := accepted[i];
      assert d in accepted;
      EndIsThere(g, base, mentions, accepted, reading, Entities.End(d.left, d.kind));
      EndIsThere(g, base, mentions, accepted, reading, Entities.End(d.right, d.kind));
      BindingsSound(accepted, mentions, reading.about, reading.registry, reading.digest, d);
    }
  }
}
