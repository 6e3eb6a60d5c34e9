/** One episode compiled to one ingest: unchanged originals, derived memories and their proof. */
module Planner {
  import opened Prelude
  import opened Ordering
  import opened Contracts

  const VERSION: string := "formation-v7-source-framing"

  datatype Coordinate = Coordinate(scopeId: string, sequence: nat, occurredAt: Clock, observedAt: Clock)

  datatype Entry =
    | Original(id: string, text: string, sourceId: string, role: Role, sourceHash: string, at: Coordinate)
    | Derived(id: string, text: string, category: Category, revision: string, sourceHash: string,
              episodeId: Option<string>, at: Coordinate)

  /** A `derived_from` relation. */
  datatype Relation = Relation(origin: string, target: string, why: string, evidence: string)

  /** A literal quote; its id is the supported entry's id and the quote's position. */
  datatype Proof = Proof(id: (string, nat), supports: string, text: string, source: string, sourceId: string)

  datatype Graph = Graph(entries: seq<Entry>, relations: seq<Relation>, evidence: seq<Proof>)

  datatype Ingest = Ingest(about: string, idempotencyKey: string, observedAt: Clock, scopeId: string, graph: Graph)

  datatype Plan = Plan(acceptedCount: nat, rejected: seq<Rejected>, ingest: Ingest)

  /** What every entry of one plan shares. */
  datatype Writing = Writing(
    about: string, hash: string, scopeId: string, revision: string, observedAt: Clock, sources: seq<Source>)

  /** `text[:n]`. */
  function First(text: string, n: nat): string {
    if n <= |text| then text[..n] else text
  }

  function SourceRef(about: string, hash: string, sourceId: string, digest: Digested -> string): string {
    about + ":source:" + digest(OfSourceRef(hash, sourceId))
  }

  function MemoryRef(about: string, hash: string, revision: string, id: string, digest: Digested -> string): string {
    about + ":memory:" + digest(OfMemoryRef(hash, VERSION, revision, id))
  }

  function RefOf(c: Candidate, w: Writing, digest: Digested -> string): string {
    MemoryRef(w.about, w.hash, w.revision, c.id, digest)
  }

  function OriginalEntry(source: Source, index: nat, about: string, hash: string, scopeId: string,
                         digest: Digested -> string): Entry
  {
    Original(SourceRef(about, hash, source.id, digest), source.text, source.id, source.role, digest(OfSource(source)),
             Coordinate(scopeId, index + 1, source.observedAt, source.observedAt))
  }

  /** The unchanged originals, numbered from one in the order they were said. */
  function Originals(sources: seq<Source>, about: string, hash: string, scopeId: string,
                     digest: Digested -> string): (r: seq<Entry>)
    ensures |r| == |sources|
    ensures forall i :: 0 <= i < |r| ==> r[i] == OriginalEntry(sources[i], i, about, hash, scopeId, digest)
  {
    seq(|sources|, i requires 0 <= i < |sources| => OriginalEntry(sources[i], i, about, hash, scopeId, digest))
  }

  function Instant(clock: Clock): int {
    if clock.instant.Some? then clock.instant.value else 0
  }

  function ClockOf(sources: seq<Source>, sourceId: string): Clock {
    var found := Lookup(sources, sourceId);
    if found.Some? then found.value.observedAt else Clock("", None)
  }

  /** `max(…, key=timestamp)`: the latest cited report, the first of equals. */
  function Reported(citations: seq<Citation>, sources: seq<Source>): Clock
    requires citations != []
  {
    var last := ClockOf(sources, citations[|citations| - 1].sourceId);
    if |citations| == 1 then last
    else
      var best := Reported(citations[..|citations| - 1], sources);
      if Instant(best) < Instant(last) then last else best
  }

  function MemoryEntry(c: Candidate, index: nat, w: Writing, digest: Digested -> string): Entry
    requires c.memory.citations != []
  {
    Derived(RefOf(c, w, digest), c.memory.text, c.memory.category, w.revision, w.hash, None,
            Coordinate(w.scopeId, index + 1, Reported(c.memory.citations, w.sources), w.observedAt))
  }

  function QuoteOf(ref: string, k: nat, c: Citation, w: Writing, digest: Digested -> string): Proof {
    Proof((ref, k), ref, c.quote, SourceRef(w.about, w.hash, c.sourceId, digest), c.sourceId)
  }

  function Quotes(ref: string, citations: seq<Citation>, w: Writing, digest: Digested -> string): (r: seq<Proof>)
    ensures |r| == |citations| && forall k :: 0 <= k < |r| ==> r[k] == QuoteOf(ref, k, citations[k], w, digest)
  {
    seq(|citations|, k requires 0 <= k < |citations| => QuoteOf(ref, k, citations[k], w, digest))
  }

  /** `'\n'.join`. */
  function Join(lines: seq<string>): string {
    if lines == [] then "" else if |lines| == 1 then lines[0] else Join(lines[..|lines| - 1]) + "\n" + lines[|lines| - 1]
  }

  function Whys(citations: seq<Citation>): seq<string> {
    seq(|citations|, k requires 0 <= k < |citations| => citations[k].why)
  }

  function QuoteTexts(citations: seq<Citation>): seq<string> {
    seq(|citations|, k requires 0 <= k < |citations| => citations[k].quote)
  }

  function Target(c: Citation, w: Writing, digest: Digested -> string): string {
    SourceRef(w.about, w.hash, c.sourceId, digest)
  }

  /** The cited originals, each at its first citation. */
  function Targets(citations: seq<Citation>, w: Writing, digest: Digested -> string): seq<string> {
    if citations == [] then []
    else
      var init := Targets(citations[..|citations| - 1], w, digest);
      var target := Target(citations[|citations| - 1], w, digest);
      if target in init then init else init + [target]
  }

  function Citing(citations: seq<Citation>, target: string, w: Writing, digest: Digested -> string): seq<Citation> {
    if citations == [] then []
    else
      var init, last := Citing(citations[..|citations| - 1], target, w, digest), citations[|citations| - 1];
      if Target(last, w, digest) == target then init + [last] else init
  }

  function Derivation(ref: string, target: string, citations: seq<Citation>): Relation {
    Relation(ref, target, Join(Whys(citations)), Join(QuoteTexts(citations)))
  }

  function Derivations(ref: string, targets: seq<string>, citations: seq<Citation>, w: Writing,
                       digest: Digested -> string): (r: seq<Relation>)
    ensures |r| == |targets|
    ensures forall k :: 0 <= k < |r| ==> r[k] == Derivation(ref, targets[k], Citing(citations, targets[k], w, digest))
  {
    seq(|targets|, k requires 0 <= k < |targets| => Derivation(ref, targets[k], Citing(citations, targets[k], w, digest)))
  }

  predicate CitesSome(accepted: seq<Candidate>) {
    forall c :: c in accepted ==> c.memory.citations != []
  }

  function MemoryEntries(accepted: seq<Candidate>, w: Writing, digest: Digested -> string): (r: seq<Entry>)
    requires CitesSome(accepted)
    ensures |r| == |accepted|
    ensures forall i :: 0 <= i < |r| ==> r[i] == MemoryEntry(accepted[i], |w.sources| + i, w, digest)
  {
    seq(|accepted|, i requires 0 <= i < |accepted| => MemoryEntry(accepted[i], |w.sources| + i, w, digest))
  }

  function MemoryRelations(accepted: seq<Candidate>, w: Writing, digest: Digested -> string): seq<Relation> {
    if accepted == [] then []
    else
      var last := accepted[|accepted| - 1];
      var citations := last.memory.citations;
      MemoryRelations(accepted[..|accepted| - 1], w, digest)
      + Derivations(RefOf(last, w, digest), Targets(citations, w, digest), citations, w, digest)
  }

  function MemoryEvidence(accepted: seq<Candidate>, w: Writing, digest: Digested -> string): seq<Proof> {
    if accepted == [] then []
    else
      var last := accepted[|accepted| - 1];
      MemoryEvidence(accepted[..|accepted| - 1], w, digest)
      + Quotes(RefOf(last, w, digest), last.memory.citations, w, digest)
  }

  /** The groups so far: a group for each cited original, holding the citations of it. */
  ghost predicate Grouped(order: seq<string>, groups: map<string, seq<Citation>>, citations: seq<Citation>, w: Writing, digest: Digested -> string) {
    && order == Targets(citations, w, digest) && (forall t :: t in groups <==> t in order)
    && (forall t :: t in order ==> groups[t] == Citing(citations, t, w, digest))
  }

  lemma {:induction false} UncitedEmpty(citations: seq<Citation>, target: string, w: Writing, digest: Digested -> string)
    requires target !in Targets(citations, w, digest)
    ensures Citing(citations, target, w, digest) == []
    decreases |citations|
  {
    if citations == [] {
    } else {
      UncitedEmpty(citations[..|citations| - 1], target, w, digest);
    }
  }

  lemma GroupOne(order: seq<string>, groups: map<string, seq<Citation>>, citations: seq<Citation>, c: Citation, w: Writing,
                 digest: Digested -> string)
    requires Grouped(order, groups, citations, w, digest)
    ensures var target := Target(c, w, digest);
            if target in groups then Grouped(order, groups[target := groups[target] + [c]], citations + [c], w, digest)
            else Grouped(order + [target], groups[target := [c]], citations + [c], w, digest)
  {
    assert (citations + [c])[..|citations + [c]| - 1] == citations;
    var target := Target(c, w, digest);
    if target !in groups { UncitedEmpty(citations, target, w, digest); }
  }

  /** `derivations.setdefault(source_ref, []).append(citation)`. */
  method Group(citations: seq<Citation>, w: Writing, digest: Digested -> string)
    returns (order: seq<string>, groups: map<string, seq<Citation>>)
    ensures Grouped(order, groups, citations, w, digest)
  {
    order, groups := [], map[];
    for i := 0 to |citations|
      invariant Grouped(order, groups, citations[..i], w, digest)
    {
      TakeSnoc(citations, i);
      GroupOne(order, groups, citations[..i], citations[i], w, digest);
      var target := Target(citations[i], w, digest);
      if target in groups {
        groups := groups[target := groups[target] + [citations[i]]];
      } else {
        order, groups := order + [target], groups[target := [citations[i]]];
      }
    }
    TakeAll(citations);
  }

  /** One memory's relations and quotes. */
  method Derive(ref: string, citations: seq<Citation>, w: Writing, digest: Digested -> string)
    returns (relations: seq<Relation>, evidence: seq<Proof>)
    ensures relations == Derivations(ref, Targets(citations, w, digest), citations, w, digest)
    ensures evidence == Quotes(ref, citations, w, digest)
  {
    evidence := [];
    for i := 0 to |citations|
      invariant |evidence| == i
      invariant forall k :: 0 <= k < i ==> evidence[k] == QuoteOf(ref, k, citations[k], w, digest)
    {
      evidence := evidence + [QuoteOf(ref, i, citations[i], w, digest)];
    }
    var order, groups := Group(citations, w, digest);
    relations := [];
    for k := 0 to |order|
      invariant |relations| == k
      invariant forall j :: 0 <= j < k ==> relations[j] == Derivation(ref, order[j], Citing(citations, order[j], w, digest))
    {
      assert order[k] in order;
      relations := relations + [Derivation(ref, order[k], groups[order[k]])];
    }
  }

  predicate ReportedBy(sources: seq<Source>, written: Clock) {
    forall s :: s in sources ==> Instant(s.observedAt) <= Instant(written)
  }

  /** Everything `compile_plan` demands. */
  predicate PlanOk(e: Episode, extracted: seq<Memory>, verified: seq<Verdict>, revision: string, observedAt: Clock,
                   digest: Digested -> string)
  {
    && EpisodeOk(e) && Accepted(revision, 256) && ClockOk(observedAt) && ReportedBy(e.sources, observedAt)
    && |extracted| <= 24 && VerdictsOk(verified, Admitted(extracted, e.sources, digest))
  }

  function AcceptedOnes(e: Episode, extracted: seq<Memory>, verified: seq<Verdict>, digest: Digested -> string): seq<Candidate>
    requires VerdictsOk(verified, Admitted(extracted, e.sources, digest))
  {
    Sort(SupportedOnes(verified, Admitted(extracted, e.sources, digest)), CandidateLe)
  }

  function WritingOf(e: Episode, revision: string, observedAt: Clock, digest: Digested -> string): Writing
  {
    var hash := digest(OfEpisode(e));
    Writing(e.about, hash, "formation-" + First(hash, 24), revision, observedAt, e.sources)
  }

  /** The accepted memories are justified, supported, told apart by name and in name order. */
  lemma AcceptedJustified(e: Episode, extracted: seq<Memory>, verified: seq<Verdict>, digest: Digested -> string)
    requires VerdictsOk(verified, Admitted(extracted, e.sources, digest))
    ensures var accepted := AcceptedOnes(e, extracted, verified, digest);
            && CitesSome(accepted) && NamesDistinct(accepted) && Sorted(accepted, CandidateLe)
            && (forall c :: c in accepted <==> c in Admitted(extracted, e.sources, digest) && Supports(verified, c.id))
            && (forall c :: c in accepted ==> Justified(c, extracted, e.sources, digest))
  {
    var proposed := Admitted(extracted, e.sources, digest);
    var supported := SupportedOnes(verified, proposed);
    AdmittedJustified(extracted, e.sources, digest);
    SupportedIff(verified, proposed);
    TextOrders();
    SortSorts(supported, CandidateLe);
    SortKeepsNames(supported);
    forall c | c in supported
      ensures c.memory.citations != []
    {
      assert Justified(c, extracted, e.sources, digest);
      var m := CanonicalKeeps(c, extracted, e.sources);
    }
  }

  lemma CanonicalKeeps(c: Candidate, extracted: seq<Memory>, sources: seq<Source>) returns (m: Memory)
    requires exists m :: m in extracted && MemoryOk(m, sources) && c.memory == Canonical(m)
    ensures m in extracted && MemoryOk(m, sources) && c.memory == Canonical(m)
    ensures c.memory.citations != [] && forall q :: q in c.memory.citations <==> q in m.citations
  {
    m :| m in extracted && MemoryOk(m, sources) && c.memory == Canonical(m);
    CitationRanks();
    SortSorts(m.citations, CitationLe);
  }

  lemma SortKeepsNames(candidates: seq<Candidate>)
    requires NamesDistinct(candidates)
    ensures NamesDistinct(Sort(candidates, CandidateLe))
  {
    var sorted := Sort(candidates, CandidateLe);
    TextOrders();
    SortSorts(candidates, CandidateLe);
    forall i, j | 0 <= i < j < |sorted|
      ensures sorted[i].id != sorted[j].id
    {
      if sorted[i].id == sorted[j].id {
        assert sorted[i] in candidates && sorted[j] in candidates;
        NoRepeatCounts(candidates, sorted[i]);
        TwiceCounts(sorted, i, j);
      }
    }
  }

  function PlanOf(e: Episode, extracted: seq<Memory>, verified: seq<Verdict>, revision: string, observedAt: Clock,
                  digest: Digested -> string): Plan
    requires PlanOk(e, extracted, verified, revision, observedAt, digest)
  {
    AcceptedJustified(e, extracted, verified, digest);
    var w, accepted := WritingOf(e, revision, observedAt, digest), AcceptedOnes(e, extracted, verified, digest);
    var proposed := Admitted(extracted, e.sources, digest);
    var graph := Graph(Originals(e.sources, w.about, w.hash, w.scopeId, digest) + MemoryEntries(accepted, w, digest),
                       MemoryRelations(accepted, w, digest), MemoryEvidence(accepted, w, digest));
    Plan(|accepted|, InvalidOnes(extracted, e.sources, digest) + UnsupportedOnes(verified, proposed),
         Ingest(w.about, "formation:" + digest(OfWriting(w.hash, VERSION, revision)), observedAt, w.scopeId, graph))
  }

  /** `compile_plan`. */
  method CompilePlan(e: Episode, extracted: seq<Memory>, verified: seq<Verdict>, revision: string, observedAt: Clock,
                     digest: Digested -> string)
    returns (r: Result<Plan, Refusal>)
    ensures r.Ok? <==> PlanOk(e, extracted, verified, revision, observedAt, digest)
    ensures r.Ok? ==> r.value == PlanOf(e, extracted, verified, revision, observedAt, digest)
  {
    var ok := CheckEpisode(e);
    if !ok || !Accepted(revision, 256) || !ClockOk(observedAt) || !ReportedBy(e.sources, observedAt) {
      return Err(ValueError);
    }
    var candidates := Candidates(extracted, e, digest);
    if candidates.None? {
      return Err(ValueError);
    }
    var (proposed, invalid) := candidates.value;
    var verdicts := Verdicts(verified, proposed);
    if verdicts.None? {
      return Err(ValueError);
    }
    var (accepted, unsupported) := verdicts.value;
    AcceptedJustified(e, extracted, verified, digest);
    var w := WritingOf(e, revision, observedAt, digest);
    var graph := BuildGraph(accepted, w, digest);
    return Ok(Plan(|accepted|, invalid + unsupported,
                   Ingest(w.about, "formation:" + digest(OfWriting(w.hash, VERSION, revision)), observedAt, w.scopeId, graph)));
  }

  /** The originals, one by one, as both compilers write them. */
  method WriteOriginals(sources: seq<Source>, about: string, hash: string, scopeId: string, digest: Digested -> string)
    returns (entries: seq<Entry>)
    ensures entries == Originals(sources, about, hash, scopeId, digest)
  {
    entries := [];
    for i := 0 to |sources|
      invariant |entries| == i
      invariant forall k :: 0 <= k < i ==> entries[k] == OriginalEntry(sources[k], k, about, hash, scopeId, digest)
    {
      entries := entries + [OriginalEntry(sources[i], i, about, hash, scopeId, digest)];
    }
  }

  method WriteProof(accepted: seq<Candidate>, w: Writing, digest: Digested -> string)
    returns (relations: seq<Relation>, evidence: seq<Proof>)
    ensures relations == MemoryRelations(accepted, w, digest) && evidence == MemoryEvidence(accepted, w, digest)
  {
    relations, evidence := [], [];
    for i := 0 to |accepted|
      invariant relations == MemoryRelations(accepted[..i], w, digest)
      invariant evidence == MemoryEvidence(accepted[..i], w, digest)
    {
      assert accepted[..i + 1][..i] == accepted[..i];
      var more, quotes := Derive(RefOf(accepted[i], w, digest), accepted[i].memory.citations, w, digest);
      relations, evidence := relations + more, evidence + quotes;
    }
    assert accepted[..|accepted|] == accepted;
  }

  /** The memories, numbered on from the originals. */
  method WriteMemories(accepted: seq<Candidate>, w: Writing, digest: Digested -> string) returns (memories: seq<Entry>)
    requires CitesSome(accepted)
    ensures memories == MemoryEntries(accepted, w, digest)
  {
    memories := [];
    for i := 0 to |accepted|
      invariant |memories| == i
      invariant forall k :: 0 <= k < i ==> memories[k] == MemoryEntry(accepted[k], |w.sources| + k, w, digest)
    {
      assert accepted[i] in accepted;
      memories := memories + [MemoryEntry(accepted[i], |w.sources| + i, w, digest)];
    }
  }

  method BuildGraph(accepted: seq<Candidate>, w: Writing, digest: Digested -> string) returns (graph: Graph)
    requires CitesSome(accepted)
    ensures graph == Graph(
        Originals(w.sources, w.about, w.hash, w.scopeId, digest) + MemoryEntries(accepted, w, digest),
        MemoryRelations(accepted, w, digest), MemoryEvidence(accepted, w, digest))
  {
    var entries := WriteOriginals(w.sources, w.about, w.hash, w.scopeId, digest);
    var memories := WriteMemories(accepted, w, digest);
    var relations, evidence := WriteProof(accepted, w, digest);
    graph := Graph(entries + memories, relations, evidence);
  }

  // ---- what a plan guarantees ----

  ghost predicate NamesOriginal(entries: seq<Entry>, id: string) {
    exists e :: e in entries && e.Original? && e.id == id
  }

  ghost predicate NamesDerived(entries: seq<Entry>, id: string) {
    exists e :: e in entries && e.Derived? && e.id == id
  }

  /** The quote is literal in the very original its `source` names. */
  ghost predicate Literal(proof: Proof, entries: seq<Entry>) {
    exists e :: e in entries && e.Original? && e.id == proof.source && e.sourceId == proof.sourceId && Within(proof.text, e.text)
  }

  ghost predicate RelationGrounded(r: Relation, entries: seq<Entry>) {
    NamesDerived(entries, r.origin) && NamesOriginal(entries, r.target)
  }

  ghost predicate ProofGrounded(p: Proof, entries: seq<Entry>) {
    NamesDerived(entries, p.supports) && Literal(p, entries)
  }

  /** The entry is this source unchanged, under a name made from a value the digest tells apart. */
  ghost predicate FromSource(e: Entry, about: string, hash: string, sources: seq<Source>, digest: Digested -> string,
                             told: set<Digested>)
  {
    exists s :: s in sources && e.id == SourceRef(about, hash, s.id, digest) && e.text == s.text
                && e.Original? && e.sourceId == s.id && OfSourceRef(hash, s.id) in told
  }

  ghost predicate NamedAsMemory(e: Entry, about: string, hash: string, digest: Digested -> string, told: set<Digested>) {
    e.Derived? && e.sourceHash == hash
    && exists id :: OfMemoryRef(hash, VERSION, e.revision, id) in told && e.id == MemoryRef(about, hash, e.revision, id, digest)
  }

  ghost predicate EntryGrounded(e: Entry, about: string, hash: string, sources: seq<Source>, digest: Digested -> string,
                                told: set<Digested>)
  {
    FromSource(e, about, hash, sources, digest, told) || NamedAsMemory(e, about, hash, digest, told)
  }

  predicate IdsDistinct(entries: seq<Entry>) {
    forall i, j :: 0 <= i < j < |entries| ==> entries[i].id != entries[j].id
  }

  /** Every entry is an unchanged source or a named memory, no name is used twice, and every
      relation and quote ends at entries that are there. */
  ghost predicate GraphGrounded(g: Graph, about: string, hash: string, sources: seq<Source>, digest: Digested -> string,
                                told: set<Digested>)
  {
    && (forall e :: e in g.entries ==> EntryGrounded(e, about, hash, sources, digest, told))
    && IdsDistinct(g.entries)
    && (forall r :: r in g.relations ==> RelationGrounded(r, g.entries))
    && (forall p :: p in g.evidence ==> ProofGrounded(p, g.entries))
  }

  lemma SuffixSame(head: string, x: string, y: string)
    requires head + x == head + y
    ensures x == y
  {
    assert x == (head + x)[|head|..] && y == (head + y)[|head|..];
  }

  lemma SourceRefTells(about: string, h: string, h': string, x: string, y: string, digest: Digested -> string, told: set<Digested>)
    requires TellsApart(digest, told) && OfSourceRef(h, x) in told && OfSourceRef(h', y) in told
    requires SourceRef(about, h, x, digest) == SourceRef(about, h', y, digest)
    ensures h == h' && x == y
  {
    SuffixSame(about + ":source:", digest(OfSourceRef(h, x)), digest(OfSourceRef(h', y)));
    DigestTells(digest, told, OfSourceRef(h, x), OfSourceRef(h', y));
  }

  lemma MemoryRefTells(about: string, h: string, h': string, v: string, v': string, x: string, y: string,
                       digest: Digested -> string, told: set<Digested>)
    requires TellsApart(digest, told) && OfMemoryRef(h, VERSION, v, x) in told && OfMemoryRef(h', VERSION, v', y) in told
    requires MemoryRef(about, h, v, x, digest) == MemoryRef(about, h', v', y, digest)
    ensures h == h' && v == v' && x == y
  {
    SuffixSame(about + ":memory:", digest(OfMemoryRef(h, VERSION, v, x)), digest(OfMemoryRef(h', VERSION, v', y)));
    DigestTells(digest, told, OfMemoryRef(h, VERSION, v, x), OfMemoryRef(h', VERSION, v', y));
  }

  lemma SourceIsNotMemory(about: string, h: string, h': string, v: string, x: string, y: string, digest: Digested -> string)
    ensures SourceRef(about, h, x, digest) != MemoryRef(about, h', v, y, digest)
  {
    assert SourceRef(about, h, x, digest)[|about| + 1] == 's';
    assert MemoryRef(about, h', v, y, digest)[|about| + 1] == 'm';
  }

  lemma {:induction false} TargetsIff(citations: seq<Citation>, w: Writing, digest: Digested -> string)
    ensures forall t :: t in Targets(citations, w, digest) <==> exists c :: c in citations && Target(c, w, digest) == t
    ensures !Repeats(Targets(citations, w, digest))
    decreases |citations|
  {
    if citations == [] {
    } else {
      var init, last := citations[..|citations| - 1], citations[|citations| - 1];
      assert citations == init + [last];
      TargetsIff(init, w, digest);
    }
  }

  lemma {:induction false} RelationsCome(accepted: seq<Candidate>, w: Writing, digest: Digested -> string, r: Relation)
    returns (c: Candidate, q: Citation)
    requires r in MemoryRelations(accepted, w, digest)
    ensures c in accepted && r.origin == RefOf(c, w, digest) && q in c.memory.citations && r.target == Target(q, w, digest)
    decreases |accepted|
  {
    var init, last := accepted[..|accepted| - 1], accepted[|accepted| - 1];
    assert accepted == init + [last];
    if r in MemoryRelations(init, w, digest) {
      c, q := RelationsCome(init, w, digest, r);
    } else {
      c := last;
      TargetsIff(c.memory.citations, w, digest);
      var targets := Targets(c.memory.citations, w, digest);
      var own := Derivations(RefOf(c, w, digest), targets, c.memory.citations, w, digest);
      var k :| 0 <= k < |own| && own[k] == r;
      assert targets[k] in targets;
      q :| q in c.memory.citations && Target(q, w, digest) == targets[k];
    }
  }

  lemma {:induction false} EvidenceComes(accepted: seq<Candidate>, w: Writing, digest: Digested -> string, p: Proof)
    returns (c: Candidate, q: Citation)
    requires p in MemoryEvidence(accepted, w, digest)
    ensures c in accepted && q in c.memory.citations && p.supports == RefOf(c, w, digest)
    ensures p.text == q.quote && p.source == Target(q, w, digest) && p.sourceId == q.sourceId
    decreases |accepted|
  {
    var init, last := accepted[..|accepted| - 1], accepted[|accepted| - 1];
    assert accepted == init + [last];
    if p in MemoryEvidence(init, w, digest) {
      c, q := EvidenceComes(init, w, digest, p);
    } else {
      c := last;
      var own := Quotes(RefOf(c, w, digest), c.memory.citations, w, digest);
      var k :| 0 <= k < |own| && own[k] == p;
      q := c.memory.citations[k];
    }
  }

  /** The entries one plan writes. */
  function EntriesOf(accepted: seq<Candidate>, w: Writing, digest: Digested -> string): seq<Entry>
    requires CitesSome(accepted)
  {
    Originals(w.sources, w.about, w.hash, w.scopeId, digest) + MemoryEntries(accepted, w, digest)
  }

  lemma EntryThere(accepted: seq<Candidate>, w: Writing, digest: Digested -> string, c: Candidate)
    requires CitesSome(accepted) && c in accepted
    ensures NamesDerived(EntriesOf(accepted, w, digest), RefOf(c, w, digest))
  {
    var i :| 0 <= i < |accepted| && accepted[i] == c;
    var entry := MemoryEntries(accepted, w, digest)[i];
    assert entry in EntriesOf(accepted, w, digest);
  }

  lemma OriginalThere(accepted: seq<Candidate>, w: Writing, digest: Digested -> string, s: Source) returns (e: Entry)
    requires CitesSome(accepted) && s in w.sources
    ensures e in EntriesOf(accepted, w, digest) && e.Original?
    ensures e.id == SourceRef(w.about, w.hash, s.id, digest) && e.sourceId == s.id && e.text == s.text
  {
    var i :| 0 <= i < |w.sources| && w.sources[i] == s;
    e := Originals(w.sources, w.about, w.hash, w.scopeId, digest)[i];
    assert e in EntriesOf(accepted, w, digest);
  }

  /** The values a plan's names are digests of are among those told apart. */
  ghost predicate NamesTold(accepted: seq<Candidate>, w: Writing, told: set<Digested>) {
    && (forall s :: s in w.sources ==> OfSourceRef(w.hash, s.id) in told)
    && (forall c :: c in accepted ==> OfMemoryRef(w.hash, VERSION, w.revision, c.id) in told)
  }

  lemma EntriesGrounded(accepted: seq<Candidate>, w: Writing, digest: Digested -> string, told: set<Digested>)
    requires CitesSome(accepted) && NamesTold(accepted, w, told)
    ensures forall e :: e in EntriesOf(accepted, w, digest) ==> EntryGrounded(e, w.about, w.hash, w.sources, digest, told)
  {
    var originals := Originals(w.sources, w.about, w.hash, w.scopeId, digest);
    var memories := MemoryEntries(accepted, w, digest);
    forall e | e in originals + memories
      ensures EntryGrounded(e, w.about, w.hash, w.sources, digest, told)
    {
      if e in originals {
        var i :| 0 <= i < |originals| && originals[i] == e;
        assert w.sources[i] in w.sources && FromSource(e, w.about, w.hash, w.sources, digest, told);
      } else {
        var i :| 0 <= i < |memories| && memories[i] == e;
        assert accepted[i] in accepted && e.id == MemoryRef(w.about, w.hash, e.revision, accepted[i].id, digest);
      }
    }
  }

  lemma IdsApart(accepted: seq<Candidate>, w: Writing, digest: Digested -> string, told: set<Digested>, i: nat, j: nat)
    requires TellsApart(digest, told) && NamesTold(accepted, w, told)
    requires CitesSome(accepted) && NamesDistinct(accepted) && Distinct(w.sources)
    requires i < j < |EntriesOf(accepted, w, digest)|
    ensures EntriesOf(accepted, w, digest)[i].id != EntriesOf(accepted, w, digest)[j].id
  {
    var entries, n := EntriesOf(accepted, w, digest), |w.sources|;
    if entries[i].id == entries[j].id {
      if j < n {
        assert w.sources[i] in w.sources && w.sources[j] in w.sources;
        SourceRefTells(w.about, w.hash, w.hash, w.sources[i].id, w.sources[j].id, digest, told);
      } else if n <= i {
        assert accepted[i - n] in accepted && accepted[j - n] in accepted;
        MemoryRefTells(w.about, w.hash, w.hash, w.revision, w.revision, accepted[i - n].id, accepted[j - n].id, digest, told);
      } else {
        SourceIsNotMemory(w.about, w.hash, w.hash, w.revision, w.sources[i].id, accepted[j - n].id, digest);
      }
    }
  }

  lemma EntryIdsDistinct(accepted: seq<Candidate>, w: Writing, digest: Digested -> string, told: set<Digested>)
    requires TellsApart(digest, told) && NamesTold(accepted, w, told)
    requires CitesSome(accepted) && NamesDistinct(accepted) && Distinct(w.sources)
    ensures IdsDistinct(EntriesOf(accepted, w, digest))
  {
    var entries := EntriesOf(accepted, w, digest);
    forall i, j | 0 <= i < j < |entries|
      ensures entries[i].id != entries[j].id
    {
      IdsApart(accepted, w, digest, told, i, j);
    }
  }

  /** Every citation of every accepted memory is literal. */
  ghost predicate CitesLiterally(accepted: seq<Candidate>, sources: seq<Source>) {
    forall c, q :: c in accepted && q in c.memory.citations ==> CitationOk(q, sources)
  }

  lemma ProofHolds(accepted: seq<Candidate>, w: Writing, digest: Digested -> string)
    requires CitesSome(accepted) && CitesLiterally(accepted, w.sources)
    ensures forall r :: r in MemoryRelations(accepted, w, digest) ==> RelationGrounded(r, EntriesOf(accepted, w, digest))
    ensures forall p :: p in MemoryEvidence(accepted, w, digest) ==> ProofGrounded(p, EntriesOf(accepted, w, digest))
  {
    forall r | r in MemoryRelations(accepted, w, digest)
      ensures RelationGrounded(r, EntriesOf(accepted, w, digest))
    {
      var c, q := RelationsCome(accepted, w, digest, r);
      EntryThere(accepted, w, digest, c);
      assert CitationOk(q, w.sources);
      var e := OriginalThere(accepted, w, digest, Lookup(w.sources, q.sourceId).value);
    }
    forall p | p in MemoryEvidence(accepted, w, digest)
      ensures ProofGrounded(p, EntriesOf(accepted, w, digest))
    {
      var c, q := EvidenceComes(accepted, w, digest, p);
      EntryThere(accepted, w, digest, c);
      assert CitationOk(q, w.sources);
      var e := OriginalThere(accepted, w, digest, Lookup(w.sources, q.sourceId).value);
    }
  }

  /** The values whose digests name the entries of one plan. */
  function PlanValues(e: Episode, extracted: seq<Memory>, revision: string, digest: Digested -> string): set<Digested> {
    var hash := digest(OfEpisode(e));
    (set s | s in e.sources :: OfSourceRef(hash, s.id))
    + (set m | m in extracted :: OfMemoryRef(hash, VERSION, revision, Fingerprint(m, digest)))
  }

  lemma AcceptedLiteral(e: Episode, extracted: seq<Memory>, verified: seq<Verdict>, digest: Digested -> string)
    requires VerdictsOk(verified, Admitted(extracted, e.sources, digest))
    ensures CitesLiterally(AcceptedOnes(e, extracted, verified, digest), e.sources)
    ensures forall c :: c in AcceptedOnes(e, extracted, verified, digest) ==> exists m :: m in extracted && c.id == Fingerprint(m, digest)
  {
    var accepted := AcceptedOnes(e, extracted, verified, digest);
    AcceptedJustified(e, extracted, verified, digest);
    forall c | c in accepted
      ensures exists m :: m in extracted && c.id == Fingerprint(m, digest)
      ensures forall q :: q in c.memory.citations ==> CitationOk(q, e.sources)
    {
      assert Justified(c, extracted, e.sources, digest);
      var m := CanonicalKeeps(c, extracted, e.sources);
    }
  }

  /** Every reference a compiled plan makes is to what it carries, and every quote is literal in the
      original it names, whatever the digest. */
  lemma PlanProofHolds(e: Episode, extracted: seq<Memory>, verified: seq<Verdict>, revision: string, observedAt: Clock,
                       digest: Digested -> string)
    requires PlanOk(e, extracted, verified, revision, observedAt, digest)
    ensures var graph := PlanOf(e, extracted, verified, revision, observedAt, digest).ingest.graph;
            && (forall r :: r in graph.relations ==> RelationGrounded(r, graph.entries))
            && (forall p :: p in graph.evidence ==> ProofGrounded(p, graph.entries))
  {
    var w, accepted := WritingOf(e, revision, observedAt, digest), AcceptedOnes(e, extracted, verified, digest);
    AcceptedJustified(e, extracted, verified, digest);
    AcceptedLiteral(e, extracted, verified, digest);
    ProofHolds(accepted, w, digest);
  }

  /** A compiled plan is grounded in its episode: nothing it says points outside what it carries,
      no name is used twice, and every quote is literal in the original it names. */
  lemma PlanIsGrounded(e: Episode, extracted: seq<Memory>, verified: seq<Verdict>, revision: string, observedAt: Clock,
                       digest: Digested -> string, told: set<Digested>)
    requires PlanOk(e, extracted, verified, revision, observedAt, digest)
    requires TellsApart(digest, told) && PlanValues(e, extracted, revision, digest) <= told
    ensures GraphGrounded(PlanOf(e, extracted, verified, revision, observedAt, digest).ingest.graph,
                          e.about, digest(OfEpisode(e)), e.sources, digest, told)
  {
    var w, accepted := WritingOf(e, revision, observedAt, digest), AcceptedOnes(e, extracted, verified, digest);
    AcceptedJustified(e, extracted, verified, digest);
    AcceptedLiteral(e, extracted, verified, digest);
    assert NamesTold(accepted, w, told) by {
      forall c | c in accepted
        ensures OfMemoryRef(w.hash, VERSION, w.revision, c.id) in told
      {
        var m :| m in extracted && c.id == Fingerprint(m, digest);
      }
    }
    EntriesGrounded(accepted, w, digest, told);
    EntryIdsDistinct(accepted, w, digest, told);
    PlanProofHolds(e, extracted, verified, revision, observedAt, digest);
  }

  predicate DerivedFrom(relations: seq<Relation>, target: string) {
    exists r :: r in relations && r.target == target
  }

  predicate Cites(citations: seq<Citation>, target: string, w: Writing, digest: Digested -> string) {
    exists q :: q in citations && Target(q, w, digest) == target
  }

  function DerivationsOf(c: Candidate, w: Writing, digest: Digested -> string): seq<Relation> {
    Derivations(RefOf(c, w, digest), Targets(c.memory.citations, w, digest), c.memory.citations, w, digest)
  }

  /** Each memory is derived from exactly the originals it cites, once each. */
  lemma DerivationsAreCited(c: Candidate, w: Writing, digest: Digested -> string, target: string)
    ensures DerivedFrom(DerivationsOf(c, w, digest), target) <==> Cites(c.memory.citations, target, w, digest)
    ensures multiset(Targets(c.memory.citations, w, digest))[target] <= 1
  {
    var targets, derived := Targets(c.memory.citations, w, digest), DerivationsOf(c, w, digest);
    TargetsIff(c.memory.citations, w, digest);
    NoRepeatCounts(targets, target);
    if target in targets {
      var k :| 0 <= k < |targets| && targets[k] == target;
      assert derived[k] in derived && derived[k].target == target;
    }
    if DerivedFrom(derived, target) {
      var r :| r in derived && r.target == target;
      var k :| 0 <= k < |derived| && derived[k] == r;
      assert targets[k] in targets;
    }
  }
}
