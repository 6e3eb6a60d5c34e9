/** Entity mentions and identities: literal occurrences, covered by proof, bound to an untouched base. */
module Entities {
  import opened Prelude
  import opened Ordering
  import opened Contracts

  // ---- literal occurrences ----

  predicate Occurs(text: string, needle: string, i: nat) {
    i + |needle| <= |text| && text[i..i + |needle|] == needle
  }

  /** `text.find(needle, start)`. */
  method Find(text: string, needle: string, start: nat) returns (r: Option<nat>)
    requires needle != ""
    ensures r.Some? ==> r.value >= start && Occurs(text, needle, r.value)
    ensures r.Some? ==> forall i :: start <= i < r.value ==> !Occurs(text, needle, i)
    ensures r.None? ==> forall i :: start <= i ==> !Occurs(text, needle, i)
  {
    var i := start;
    while i + |needle| <= |text|
      invariant start <= i && forall k :: start <= k < i ==> !Occurs(text, needle, k)
    {
      if text[i..i + |needle|] == needle {
        return Some(i);
      }
      i := i + 1;
    }
    return None;
  }

  predicate Rising(offsets: seq<nat>) {
    forall i, j :: 0 <= i < j < |offsets| ==> offsets[i] < offsets[j]
  }

  /** The places where the needle occurs, overlapping ones too. */
  ghost predicate AllOccurrences(offsets: seq<nat>, text: string, needle: string) {
    Rising(offsets) && forall i :: i in offsets <==> Occurs(text, needle, i)
  }

  /** `positions`. */
  method Positions(text: string, needle: string) returns (offsets: seq<nat>)
    requires needle != ""
    ensures AllOccurrences(offsets, text, needle)
  {
    offsets := [];
    var start := 0;
    while start <= |text|
      invariant Rising(offsets)
      invariant forall i: nat :: i in offsets <==> i < start && Occurs(text, needle, i)
      decreases |text| + 1 - start
    {
      var found := Find(text, needle, start);
      if found.None? {
        return;
      }
      forall k | 0 <= k < |offsets|
        ensures offsets[k] < found.value
      {
        assert offsets[k] in offsets;
      }
      offsets, start := offsets + [found.value], found.value + 1;
    }
  }

  /** The list is the only one of its kind: the n-th occurrence is well defined. */
  lemma OccurrencesUnique(a: seq<nat>, b: seq<nat>)
    requires Rising(a) && Rising(b) && forall i :: i in a <==> i in b
    ensures a == b
  {
    SameMembers(a, b);
    SortedUnique(a, b, (x: nat, y: nat) => x <= y);
  }

  // ---- mentions ----

  datatype Asked = Asked(sourceId: string, text: string, occurrence: int)

  datatype Mention = Mention(sourceId: string, text: string, start: nat, end: nat)

  /** The mention is the literal interval asked for. */
  ghost predicate Located(m: Mention, asked: Asked, sources: seq<Source>) {
    && m.sourceId == asked.sourceId && m.text == asked.text && Lookup(sources, m.sourceId).Some?
    && var text := Lookup(sources, m.sourceId).value.text;
       && m.end == m.start + |m.text| && Occurs(text, m.text, m.start)
       && exists offsets :: AllOccurrences(offsets, text, m.text) && 0 <= asked.occurrence < |offsets| && offsets[asked.occurrence] == m.start
  }

  predicate Askable(asked: Asked, sources: seq<Source>) {
    Accepted(asked.sourceId, 256) && Accepted(asked.text, 256) && Lookup(sources, asked.sourceId).Some? && asked.occurrence >= 0
  }

  /** `mention`: the occurrence asked for, or a refusal when there are not so many. */
  method Locate(asked: Asked, sources: seq<Source>) returns (r: Option<Mention>)
    ensures r.Some? ==> Askable(asked, sources) && Located(r.value, asked, sources)
    ensures r.None? && Askable(asked, sources) ==>
              forall m :: !Located(m, asked, sources)
  {
    if !Askable(asked, sources) {
      return None;
    }
    var text := Lookup(sources, asked.sourceId).value.text;
    var offsets := Positions(text, asked.text);
    if asked.occurrence >= |offsets| {
      forall m | Located(m, asked, sources)
        ensures false
      {
        var others :| AllOccurrences(others, text, m.text) && 0 <= asked.occurrence < |others| && others[asked.occurrence] == m.start;
        OccurrencesUnique(offsets, others);
      }
      return None;
    }
    var start := offsets[asked.occurrence];
    assert start in offsets;
    return Some(Mention(asked.sourceId, asked.text, start, start + |asked.text|));
  }

  // ---- identity proposals ----

  datatype Kind = Person | Organization | Project | Place | Device | Account | Other | NoKind(word: string)

  datatype Basis = ExplicitAlias | ExplicitRename | StableIdentifier | UnambiguousReference | NoBasis(word: string)

  /** A context: the sources known up to an explicit cutoff. */
  datatype Context = Context(about: string, contextId: string, asOf: Clock, sources: seq<Source>)

  predicate ContextOk(c: Context) {
    && EpisodeOk(Episode(c.about, c.contextId, c.sources)) && ClockOk(c.asOf)
    && forall s :: s in c.sources ==> s.observedAt.instant.value <= c.asOf.instant.value
  }

  const PROOF_NOTE_LIMIT: nat := 1600

  datatype Proposal = Proposal(left: Asked, right: Asked, kind: Kind, basis: Basis, why: string, citations: seq<Citation>)

  datatype Identity = Identity(left: Mention, right: Mention, kind: Kind, basis: Basis, why: string, citations: seq<Citation>)

  function KeyOf(m: Mention): (string, nat, nat) { (m.sourceId, m.start, m.end) }

  /** How `sorted` compares two mentions by their keys. */
  predicate KeyLe(a: Mention, b: Mention) {
    if a.sourceId != b.sourceId then TextLe(a.sourceId, b.sourceId)
    else a.start < b.start || (a.start == b.start && a.end <= b.end)
  }

  /** Some quote of the source contains the mention's own interval. */
  ghost predicate Covered(m: Mention, citations: seq<Citation>, sources: seq<Source>) {
    exists c, start :: c in citations && CoveredBy(m, c, start, sources)
  }

  predicate CoveredBy(m: Mention, c: Citation, start: nat, sources: seq<Source>) {
    && c.sourceId == m.sourceId && Lookup(sources, c.sourceId).Some?
    && Occurs(Lookup(sources, c.sourceId).value.text, c.quote, start)
    && start <= m.start && m.end <= start + |c.quote|
  }

  method CoversOne(m: Mention, c: Citation, sources: seq<Source>) returns (ok: bool)
    requires QuoteOk(c, sources, PROOF_NOTE_LIMIT)
    ensures ok <==> exists start :: CoveredBy(m, c, start, sources)
  {
    if c.sourceId != m.sourceId {
      return false;
    }
    var offsets := Positions(Lookup(sources, c.sourceId).value.text, c.quote);
    for i := 0 to |offsets|
      invariant forall k :: 0 <= k < i ==> !CoveredBy(m, c, offsets[k], sources)
    {
      if offsets[i] <= m.start && m.end <= offsets[i] + |c.quote| {
        assert offsets[i] in offsets;
        assert CoveredBy(m, c, offsets[i], sources);
        return true;
      }
    }
    forall start
      ensures !CoveredBy(m, c, start, sources)
    {
      if start in offsets {
        var k :| 0 <= k < |offsets| && offsets[k] == start;
      }
    }
    return false;
  }

  /** `any(…)` over the citations. */
  method Covers(m: Mention, citations: seq<Citation>, sources: seq<Source>) returns (ok: bool)
    requires forall c :: c in citations ==> QuoteOk(c, sources, PROOF_NOTE_LIMIT)
    ensures ok <==> Covered(m, citations, sources)
  {
    for i := 0 to |citations|
      invariant forall k :: 0 <= k < i ==> forall start :: !CoveredBy(m, citations[k], start, sources)
    {
      assert citations[i] in citations;
      var one := CoversOne(m, citations[i], sources);
      if one {
        return true;
      }
    }
    return false;
  }

  /** The citations of a proposal: a few literal quotes, none given twice. */
  predicate ProofOk(citations: seq<Citation>, sources: seq<Source>) {
    1 <= |citations| <= 8 && CitationsOk(citations, sources, PROOF_NOTE_LIMIT)
  }

  /** The identity is what this proposal proves: two different literal occurrences in key order, a
      known kind and basis, and distinct literal quotes, sorted, that cover both. */
  ghost predicate Proved(d: Identity, p: Proposal, sources: seq<Source>) {
    && KeyOf(d.left) != KeyOf(d.right) && KeyLe(d.left, d.right)
    && ((Located(d.left, p.left, sources) && Located(d.right, p.right, sources))
        || (Located(d.left, p.right, sources) && Located(d.right, p.left, sources)))
    && Askable(p.left, sources) && Askable(p.right, sources)
    && d.kind == p.kind && !d.kind.NoKind? && d.basis == p.basis && !d.basis.NoBasis?
    && d.why == p.why && Accepted(p.why, 1600)
    && d.citations == Sort(p.citations, CitationLe) && ProofOk(p.citations, sources)
    && Covered(d.left, d.citations, sources) && Covered(d.right, d.citations, sources)
  }

  type Pair = ((string, nat, nat), (string, nat, nat))

  function PairOf(d: Identity): Pair { (KeyOf(d.left), KeyOf(d.right)) }

  /** The two mentions in key order. */
  function InOrder(left: Mention, right: Mention): (Mention, Mention) {
    if KeyLe(left, right) then (left, right) else (right, left)
  }

  lemma InOrderIs(left: Mention, right: Mention)
    ensures KeyLe(InOrder(left, right).0, InOrder(left, right).1)
  {
    TextOrders();
  }

  lemma SortedCites(citations: seq<Citation>)
    ensures forall c :: c in Sort(citations, CitationLe) <==> c in citations
    ensures |Sort(citations, CitationLe)| == |citations|
  {
    CitationRanks();
    SortSorts(citations, CitationLe);
  }

  lemma CoverageSorted(m: Mention, citations: seq<Citation>, sources: seq<Source>)
    ensures Covered(m, citations, sources) <==> Covered(m, Sort(citations, CitationLe), sources)
  {
    SortedCites(citations);
    var sorted := Sort(citations, CitationLe);
    if Covered(m, citations, sources) {
      var c, start :| c in citations && CoveredBy(m, c, start, sources);
      assert c in sorted;
    }
    if Covered(m, sorted, sources) {
      var c, start :| c in sorted && CoveredBy(m, c, start, sources);
      assert c in citations;
    }
  }

  method CheckProof(a: Mention, b: Mention, citations: seq<Citation>, sources: seq<Source>) returns (ok: bool)
    ensures ok <==> ProofOk(citations, sources) && Covered(a, citations, sources) && Covered(b, citations, sources)
  {
    var cited := CheckCitations(citations, sources, PROOF_NOTE_LIMIT);
    if !(1 <= |citations| <= 8) || !cited {
      return false;
    }
    var first := Covers(a, citations, sources);
    var second := Covers(b, citations, sources);
    ok := first && second;
  }

  lemma LocatedOnce(m: Mention, n: Mention, asked: Asked, sources: seq<Source>)
    requires Located(m, asked, sources) && Located(n, asked, sources)
    ensures m == n
  {
    var text := Lookup(sources, m.sourceId).value.text;
    var left :| AllOccurrences(left, text, m.text) && 0 <= asked.occurrence < |left| && left[asked.occurrence] == m.start;
    var right :| AllOccurrences(right, text, n.text) && 0 <= asked.occurrence < |right| && right[asked.occurrence] == n.start;
    OccurrencesUnique(left, right);
  }

  lemma KeyOrders(a: Mention, b: Mention)
    requires KeyLe(a, b) && KeyLe(b, a)
    ensures KeyOf(a) == KeyOf(b)
  {
    TextOrders();
  }

  /** A proposal proves at most one identity. */
  lemma ProvedOnce(d: Identity, e: Identity, p: Proposal, sources: seq<Source>)
    requires Proved(d, p, sources) && Proved(e, p, sources)
    ensures d == e
  {
    if Located(d.left, p.left, sources) && Located(d.right, p.right, sources) {
      SameEnds(d, e, p, sources);
    } else if Located(e.left, p.left, sources) && Located(e.right, p.right, sources) {
      SameEnds(e, d, p, sources);
    } else {
      LocatedOnce(d.left, e.left, p.right, sources);
      LocatedOnce(d.right, e.right, p.left, sources);
    }
  }

  lemma SameEnds(d: Identity, e: Identity, p: Proposal, sources: seq<Source>)
    requires Proved(d, p, sources) && Proved(e, p, sources)
    requires Located(d.left, p.left, sources) && Located(d.right, p.right, sources)
    ensures d == e
  {
    if Located(e.left, p.left, sources) && Located(e.right, p.right, sources) {
      LocatedOnce(d.left, e.left, p.left, sources);
      LocatedOnce(d.right, e.right, p.right, sources);
    } else {
      LocatedOnce(d.left, e.right, p.left, sources);
      LocatedOnce(d.right, e.left, p.right, sources);
      KeyOrders(d.left, d.right);
    }
  }

  /** Nothing is proved when an end is missing, or the two ends in order are refused. */
  lemma ProvedEnds(d: Identity, p: Proposal, sources: seq<Source>, left: Mention, right: Mention)
    requires Proved(d, p, sources) && Located(left, p.left, sources) && Located(right, p.right, sources)
    ensures (d.left, d.right) == InOrder(left, right)
  {
    if Located(d.left, p.left, sources) && Located(d.right, p.right, sources) {
      LocatedOnce(d.left, left, p.left, sources);
      LocatedOnce(d.right, right, p.right, sources);
    } else {
      LocatedOnce(d.left, right, p.right, sources);
      LocatedOnce(d.right, left, p.left, sources);
      if KeyLe(left, right) { KeyOrders(left, right); }
    }
  }

  /** What was judged is all the proposal proves, or all it proves is claimed already. */
  ghost predicate JudgedAs(p: Proposal, sources: seq<Source>, seen: set<Pair>, judged: Option<Identity>) {
    match judged
    case Some(d) => Proved(d, p, sources) && PairOf(d) !in seen
    case None => forall d :: Proved(d, p, sources) ==> PairOf(d) in seen
  }

  /** One proposal: refused exactly when it proves nothing whose pair is new. */
  method Judge(p: Proposal, sources: seq<Source>, seen: set<Pair>) returns (r: Option<Identity>)
    ensures JudgedAs(p, sources, seen, r)
  {
    var left := Locate(p.left, sources);
    var right := Locate(p.right, sources);
    if left.None? || right.None? {
      return None;
    }
    var (a, b) := InOrder(left.value, right.value);
    InOrderIs(left.value, right.value);
    forall d | Proved(d, p, sources)
      ensures d.left == a && d.right == b
    {
      ProvedEnds(d, p, sources, left.value, right.value);
    }
    if KeyOf(a) == KeyOf(b) || (KeyOf(a), KeyOf(b)) in seen || p.kind.NoKind? || p.basis.NoBasis? || !Accepted(p.why, 1600) {
      return None;
    }
    var proof := CheckProof(a, b, p.citations, sources);
    CoverageSorted(a, p.citations, sources);
    CoverageSorted(b, p.citations, sources);
    if !proof {
      return None;
    }
    return Some(Identity(a, b, p.kind, p.basis, p.why, Sort(p.citations, CitationLe)));
  }

  /** The proposal proves an identity of this pair. */
  ghost predicate Proves(p: Proposal, sources: seq<Source>, pair: Pair) {
    exists d :: Proved(d, p, sources) && PairOf(d) == pair
  }

  /** Some proposal before the n-th does. */
  ghost predicate Claims(proposals: seq<Proposal>, n: nat, sources: seq<Source>, pair: Pair) {
    exists j :: 0 <= j < n && j < |proposals| && Proves(proposals[j], sources, pair)
  }

  /** The i-th proposal is accepted, as this identity: it proves it, and no earlier one its pair. */
  ghost predicate Accepts(proposals: seq<Proposal>, i: nat, sources: seq<Source>, d: Identity)
    requires i < |proposals|
  {
    Proved(d, proposals[i], sources) && !Claims(proposals, i, sources, PairOf(d))
  }

  /** Which proposals were accepted, as what, and which were refused. */
  ghost predicate Sifted(proposals: seq<Proposal>, n: nat, sources: seq<Source>, accepted: seq<Identity>, kept: seq<nat>, rejected: seq<nat>)
    requires n <= |proposals|
  {
    && |accepted| == |kept| && |kept| + |rejected| == n && RisingBelow(kept, n) && RisingBelow(rejected, n)
    && (forall k :: 0 <= k < |kept| ==> Accepts(proposals, kept[k], sources, accepted[k]))
    && (forall k, d :: 0 <= k < |rejected| ==> !Accepts(proposals, rejected[k], sources, d))
  }

  lemma ClaimsMore(proposals: seq<Proposal>, i: nat, sources: seq<Source>, pair: Pair)
    requires i < |proposals|
    ensures Claims(proposals, i + 1, sources, pair) <==> Claims(proposals, i, sources, pair) || Proves(proposals[i], sources, pair)
  {
  }

  ghost predicate SeenOf(seen: set<Pair>, proposals: seq<Proposal>, n: nat, sources: seq<Source>) {
    forall pair :: pair in seen <==> Claims(proposals, n, sources, pair)
  }

  function SeenAfter(seen: set<Pair>, judged: Option<Identity>): set<Pair> {
    if judged.Some? then seen + {PairOf(judged.value)} else seen
  }

  lemma SeenMore(seen: set<Pair>, proposals: seq<Proposal>, i: nat, sources: seq<Source>, judged: Option<Identity>)
    requires i < |proposals| && SeenOf(seen, proposals, i, sources) && JudgedAs(proposals[i], sources, seen, judged)
    ensures SeenOf(SeenAfter(seen, judged), proposals, i + 1, sources)
  {
    var after := SeenAfter(seen, judged);
    forall pair
      ensures pair in after <==> Claims(proposals, i + 1, sources, pair)
    {
      ClaimsMore(proposals, i, sources, pair);
      if Proves(proposals[i], sources, pair) {
        var d :| Proved(d, proposals[i], sources) && PairOf(d) == pair;
        if judged.Some? { ProvedOnce(d, judged.value, proposals[i], sources); }
      }
      if judged.Some? && pair == PairOf(judged.value) { assert Proves(proposals[i], sources, pair); }
    }
  }

  /** Some way through the proposals. */
  ghost predicate Sifting(proposals: seq<Proposal>, i: nat, sources: seq<Source>, seen: set<Pair>,
                          accepted: seq<Identity>, kept: seq<nat>, rejected: seq<nat>)
    requires i <= |proposals|
  {
    SeenOf(seen, proposals, i, sources) && Sifted(proposals, i, sources, accepted, kept, rejected)
  }

  lemma SiftMore(proposals: seq<Proposal>, i: nat, sources: seq<Source>, seen: set<Pair>, judged: Option<Identity>,
                 accepted: seq<Identity>, kept: seq<nat>, rejected: seq<nat>)
    requires i < |proposals| && Sifting(proposals, i, sources, seen, accepted, kept, rejected)
    requires JudgedAs(proposals[i], sources, seen, judged)
    ensures judged.Some? ==>
              Sifting(proposals, i + 1, sources, SeenAfter(seen, judged), accepted + [judged.value], kept + [i], rejected)
    ensures judged.None? ==> Sifting(proposals, i + 1, sources, seen, accepted, kept, rejected + [i])
  {
    SeenMore(seen, proposals, i, sources, judged);
    if judged.Some? {
      SiftKeeps(proposals, i, sources, seen, judged.value, accepted, kept, rejected);
    } else {
      SiftDrops(proposals, i, sources, seen, accepted, kept, rejected);
    }
  }

  lemma SiftKeeps(proposals: seq<Proposal>, i: nat, sources: seq<Source>, seen: set<Pair>, d: Identity,
                  accepted: seq<Identity>, kept: seq<nat>, rejected: seq<nat>)
    requires i < |proposals| && Sifting(proposals, i, sources, seen, accepted, kept, rejected)
    requires JudgedAs(proposals[i], sources, seen, Some(d))
    ensures Sifted(proposals, i + 1, sources, accepted + [d], kept + [i], rejected)
  {
    assert Accepts(proposals, i, sources, d);
  }

  lemma SiftDrops(proposals: seq<Proposal>, i: nat, sources: seq<Source>, seen: set<Pair>,
                  accepted: seq<Identity>, kept: seq<nat>, rejected: seq<nat>)
    requires i < |proposals| && Sifting(proposals, i, sources, seen, accepted, kept, rejected)
    requires JudgedAs(proposals[i], sources, seen, None)
    ensures Sifted(proposals, i + 1, sources, accepted, kept, rejected + [i])
  {
    assert forall d :: !Accepts(proposals, i, sources, d);
  }

  /** `context`. */
  method CheckContext(c: Context) returns (ok: bool)
    ensures ok <==> ContextOk(c)
  {
    var known := CheckEpisode(Episode(c.about, c.contextId, c.sources));
    ok := known && ClockOk(c.asOf) && forall s :: s in c.sources ==> s.observedAt.instant.value <= c.asOf.instant.value;
  }

  lemma SiftNone(proposals: seq<Proposal>, sources: seq<Source>)
    ensures Sifting(proposals, 0, sources, {}, [], [], [])
  {
  }

  /** One proposal: accepted under a new pair, or listed with its index. */
  method SiftOne(proposals: seq<Proposal>, i: nat, sources: seq<Source>, seen: set<Pair>,
                 accepted: seq<Identity>, rejected: seq<nat>, ghost kept: seq<nat>)
    returns (seen': set<Pair>, accepted': seq<Identity>, rejected': seq<nat>, ghost kept': seq<nat>)
    requires i < |proposals| && Sifting(proposals, i, sources, seen, accepted, kept, rejected)
    ensures Sifting(proposals, i + 1, sources, seen', accepted', kept', rejected')
  {
    seen', accepted', rejected', kept' := seen, accepted, rejected, kept;
    var judged := Judge(proposals[i], sources, seen);
    SiftMore(proposals, i, sources, seen, judged, accepted, kept, rejected);
    if judged.Some? {
      accepted', seen' := accepted + [judged.value], seen + {PairOf(judged.value)};
      kept' := kept + [i];
    } else {
      rejected' := rejected + [i];
    }
  }

  /** The proposals in turn. */
  method Sift(proposals: seq<Proposal>, sources: seq<Source>)
    returns (accepted: seq<Identity>, rejected: seq<nat>, ghost kept: seq<nat>)
    ensures Sifted(proposals, |proposals|, sources, accepted, kept, rejected)
  {
    var seen: set<Pair>;
    accepted, rejected, kept, seen := [], [], [], {};
    SiftNone(proposals, sources);
    for i := 0 to |proposals|
      invariant Sifting(proposals, i, sources, seen, accepted, kept, rejected)
    {
      seen, accepted, rejected, kept := SiftOne(proposals, i, sources, seen, accepted, rejected, kept);
    }
  }

  /** `candidates`: a proposal is accepted exactly when it proves an identity whose pair no earlier
      proposal proved. */
  method Candidates(proposals: seq<Proposal>, context: Context) returns (r: Option<(seq<Identity>, seq<nat>)>, ghost kept: seq<nat>)
    ensures r.Some? <==> ContextOk(context) && |proposals| <= 32
    ensures r.Some? ==> Sifted(proposals, |proposals|, context.sources, r.value.0, kept, r.value.1)
  {
    kept := [];
    var known := CheckContext(context);
    if !known || |proposals| > 32 {
      return None, kept;
    }
    var accepted, rejected;
    accepted, rejected, kept := Sift(proposals, context.sources);
    return Some((accepted, rejected)), kept;
  }

  predicate PairsDistinct(accepted: seq<Identity>) {
    forall i, j :: 0 <= i < j < |accepted| ==> PairOf(accepted[i]) != PairOf(accepted[j])
  }

  /** No pair is accepted twice. */
  lemma SiftedApart(proposals: seq<Proposal>, n: nat, sources: seq<Source>, accepted: seq<Identity>, kept: seq<nat>, rejected: seq<nat>)
    requires n <= |proposals| && Sifted(proposals, n, sources, accepted, kept, rejected)
    ensures PairsDistinct(accepted)
  {
    forall i, j | 0 <= i < j < |accepted|
      ensures PairOf(accepted[i]) != PairOf(accepted[j])
    {
      assert Accepts(proposals, kept[i], sources, accepted[i]) && Accepts(proposals, kept[j], sources, accepted[j]);
    }
  }

  // ---- the plan ----

  /** What a mention node is named by: the original's reference and the interval. */
  type Interval = (string, nat, nat)

  /** No two of these intervals share a digest. */
  ghost predicate IntervalsTell(digest: Interval -> string, told: set<Interval>) {
    forall x, y :: x in told && y in told && digest(x) == digest(y) ==> x == y
  }

  datatype MentionEntry = MentionEntry(
    id: string, text: string, kind: Kind, sourceRef: string, sourceId: string, start: nat, end: nat)

  datatype Binding = Binding(left: string, right: string, kind: Kind, basis: Basis, quotes: seq<Citation>)

  function IntervalOf(m: Mention, registry: map<string, string>): Interval
    requires m.sourceId in registry
  {
    (registry[m.sourceId], m.start, m.end)
  }

  function NodeRef(about: string, m: Mention, registry: map<string, string>, digest: Interval -> string): string
    requires m.sourceId in registry
  {
    about + ":entity-mention:" + digest(IntervalOf(m, registry))
  }

  /** Each source's original has its own ref. */
  predicate RegistryTells(registry: map<string, string>) {
    forall a, b :: a in registry && b in registry && registry[a] == registry[b] ==> a == b
  }

  lemma NodeRefTells(about: string, a: Mention, b: Mention, registry: map<string, string>, digest: Interval -> string, told: set<Interval>)
    requires IntervalsTell(digest, told) && RegistryTells(registry) && a.sourceId in registry && b.sourceId in registry
    requires IntervalOf(a, registry) in told && IntervalOf(b, registry) in told
    requires NodeRef(about, a, registry, digest) == NodeRef(about, b, registry, digest)
    ensures KeyOf(a) == KeyOf(b)
  {
    var head := about + ":entity-mention:";
    var x, y := digest(IntervalOf(a, registry)), digest(IntervalOf(b, registry));
    assert (head + x)[|head|..] == x && (head + y)[|head|..] == y;
  }

  predicate HasNode(mentions: seq<MentionEntry>, ref: string, kind: Kind) {
    exists i :: 0 <= i < |mentions| && mentions[i].id == ref && mentions[i].kind == kind
  }

  predicate NodesDistinct(mentions: seq<MentionEntry>) {
    forall i, j :: 0 <= i < j < |mentions| ==> mentions[i].id != mentions[j].id
  }

  function NodeFor(mentions: seq<MentionEntry>, ref: string): (r: Option<MentionEntry>)
    ensures r.Some? ==> r.value in mentions && r.value.id == ref
    ensures r.None? ==> forall e :: e in mentions ==> e.id != ref
  {
    if mentions == [] then None
    else
      var init, last := mentions[..|mentions| - 1], mentions[|mentions| - 1];
      assert mentions == init + [last];
      if last.id == ref then Some(last) else NodeFor(init, ref)
  }

  /** One end of an accepted identity. */
  datatype End = End(mention: Mention, kind: Kind)

  function Ends(accepted: seq<Identity>): set<End> {
    (set d | d in accepted :: End(d.left, d.kind)) + (set d | d in accepted :: End(d.right, d.kind))
  }

  predicate Registered(ends: set<End>, registry: map<string, string>) {
    forall x :: x in ends ==> x.mention.sourceId in registry
  }

  function Intervals(ends: set<End>, registry: map<string, string>): set<Interval>
    requires Registered(ends, registry)
  {
    set x | x in ends :: IntervalOf(x.mention, registry)
  }

  /** One source occurrence is given two kinds. */
  ghost predicate KindsClash(ends: set<End>) {
    exists x, y :: x in ends && y in ends && KeyOf(x.mention) == KeyOf(y.mention) && x.kind != y.kind
  }

  /** The node of one end: its own interval of the registered original, of its kind. */
  function NodeAt(about: string, x: End, registry: map<string, string>, digest: Interval -> string): MentionEntry
    requires x.mention.sourceId in registry
  {
    MentionEntry(NodeRef(about, x.mention, registry, digest), x.mention.text, x.kind, registry[x.mention.sourceId],
                 x.mention.sourceId, x.mention.start, x.mention.end)
  }

  ghost predicate EndOfSome(entry: MentionEntry, ends: set<End>, about: string, registry: map<string, string>, digest: Interval -> string)
    requires Registered(ends, registry)
  {
    exists x :: x in ends && entry == NodeAt(about, x, registry, digest)
  }

  /** The nodes are those of these ends, one for each occurrence. */
  ghost predicate NodesAre(mentions: seq<MentionEntry>, ends: set<End>, about: string, registry: map<string, string>,
                           digest: Interval -> string)
    requires Registered(ends, registry)
  {
    && NodesDistinct(mentions)
    && (forall entry :: entry in mentions ==> EndOfSome(entry, ends, about, registry, digest))
    && (forall x :: x in ends ==> HasNode(mentions, NodeRef(about, x.mention, registry, digest), x.kind))
  }

  lemma NodeClashes(ends: set<End>, x: End, y: End, about: string, registry: map<string, string>, digest: Interval -> string)
    requires Registered(ends, registry) && RegistryTells(registry) && IntervalsTell(digest, Intervals(ends, registry))
    requires x in ends && y in ends && x.kind != y.kind
    requires NodeRef(about, x.mention, registry, digest) == NodeRef(about, y.mention, registry, digest)
    ensures KindsClash(ends)
  {
    NodeRefTells(about, x.mention, y.mention, registry, digest, Intervals(ends, registry));
  }

  lemma NoClash(mentions: seq<MentionEntry>, ends: set<End>, about: string, registry: map<string, string>, digest: Interval -> string)
    requires Registered(ends, registry) && NodesAre(mentions, ends, about, registry, digest)
    ensures !KindsClash(ends)
  {
    forall x, y | x in ends && y in ends && KeyOf(x.mention) == KeyOf(y.mention)
      ensures x.kind == y.kind
    {
      var ref := NodeRef(about, x.mention, registry, digest);
      var i :| 0 <= i < |mentions| && mentions[i].id == ref && mentions[i].kind == x.kind;
      var j :| 0 <= j < |mentions| && mentions[j].id == ref && mentions[j].kind == y.kind;
    }
  }

  lemma NodesAreMore(mentions: seq<MentionEntry>, more: seq<MentionEntry>, ends: set<End>, x: End, about: string,
                     registry: map<string, string>, digest: Interval -> string)
    requires Registered(ends + {x}, registry) && NodesAre(mentions, ends, about, registry, digest)
    requires more == mentions || more == mentions + [NodeAt(about, x, registry, digest)]
    requires NodesDistinct(more) && HasNode(more, NodeRef(about, x.mention, registry, digest), x.kind)
    ensures NodesAre(more, ends + {x}, about, registry, digest)
  {
    forall entry | entry in more
      ensures EndOfSome(entry, ends + {x}, about, registry, digest)
    {
      if entry in mentions {
        var y :| y in ends && entry == NodeAt(about, y, registry, digest);
        assert y in ends + {x};
      } else {
        assert x in ends + {x};
      }
    }
    forall y | y in ends + {x}
      ensures HasNode(more, NodeRef(about, y.mention, registry, digest), y.kind)
    {
      if y in ends { HasMore(mentions, more, NodeRef(about, y.mention, registry, digest), y.kind); }
    }
  }

  lemma HasMore(mentions: seq<MentionEntry>, more: seq<MentionEntry>, ref: string, kind: Kind)
    requires mentions <= more && HasNode(mentions, ref, kind)
    ensures HasNode(more, ref, kind)
  {
    var i :| 0 <= i < |mentions| && mentions[i].id == ref && mentions[i].kind == kind;
    assert more[i] == mentions[i];
  }

  /** `node`: one node for one occurrence; it refuses only an occurrence given two kinds. */
  method Node(mentions: seq<MentionEntry>, ghost ends: set<End>, about: string, x: End, registry: map<string, string>,
              digest: Interval -> string, ghost all: set<End>)
    returns (r: Option<seq<MentionEntry>>)
    requires Registered(all, registry) && RegistryTells(registry) && IntervalsTell(digest, Intervals(all, registry))
    requires ends <= all && x in all && Registered(ends, registry) && NodesAre(mentions, ends, about, registry, digest)
    ensures r.None? ==> KindsClash(all)
    ensures r.Some? ==> Registered(ends + {x}, registry) && NodesAre(r.value, ends + {x}, about, registry, digest)
    ensures r.Some? ==> mentions <= r.value
  {
    var ref := NodeRef(about, x.mention, registry, digest);
    var known := NodeFor(mentions, ref);
    if known.Some? {
      if known.value.kind != x.kind {
        assert EndOfSome(known.value, ends, about, registry, digest);
        ghost var y :| y in ends && known.value == NodeAt(about, y, registry, digest);
        NodeClashes(all, x, y, about, registry, digest);
        return None;
      }
      var i :| 0 <= i < |mentions| && mentions[i] == known.value;
      assert HasNode(mentions, ref, x.kind);
      NodesAreMore(mentions, mentions, ends, x, about, registry, digest);
      return Some(mentions);
    }
    var entry := MentionEntry(ref, x.mention.text, x.kind, registry[x.mention.sourceId], x.mention.sourceId,
                              x.mention.start, x.mention.end);
    var more := mentions + [entry];
    assert more[|mentions|] == entry;
    assert HasNode(more, ref, x.kind);
    NodesAreMore(mentions, more, ends, x, about, registry, digest);
    return Some(more);
  }

  predicate Resolvable(d: Identity, registry: map<string, string>) {
    d.left.sourceId in registry && d.right.sourceId in registry && KeyOf(d.left) != KeyOf(d.right) && d.citations != []
  }

  predicate AllResolvable(accepted: seq<Identity>, registry: map<string, string>) {
    forall d :: d in accepted ==> Resolvable(d, registry)
  }

  /** What the boundary accepts, the plan can bind: its ends are different mentions of registered
      originals. */
  lemma ProvedResolvable(d: Identity, p: Proposal, sources: seq<Source>, registry: map<string, string>)
    requires Proved(d, p, sources) && forall s :: s in sources ==> s.id in registry
    ensures Resolvable(d, registry)
  {
    SortedCites(p.citations);
    assert Lookup(sources, d.left.sourceId).value in sources && Lookup(sources, d.right.sourceId).value in sources;
  }

  /** The binding of one accepted identity: it joins the nodes of its two ends. */
  function BindingOf(d: Identity, about: string, registry: map<string, string>, digest: Interval -> string): Binding
    requires Resolvable(d, registry)
  {
    Binding(NodeRef(about, d.left, registry, digest), NodeRef(about, d.right, registry, digest), d.kind, d.basis, d.citations)
  }

  /** What the accepted identities ask of the digest: to tell the intervals they join apart. */
  ghost predicate Bindable(accepted: seq<Identity>, registry: map<string, string>, digest: Interval -> string) {
    && AllResolvable(accepted, registry) && RegistryTells(registry)
    && Registered(Ends(accepted), registry) && IntervalsTell(digest, Intervals(Ends(accepted), registry))
  }

  lemma EndsSnoc(init: seq<Identity>, d: Identity)
    ensures Ends(init + [d]) == Ends(init) + {End(d.left, d.kind)} + {End(d.right, d.kind)}
  {
    assert d in init + [d];
  }

  lemma EndsOfPrefix(accepted: seq<Identity>, i: nat)
    requires i < |accepted|
    ensures Ends(accepted[..i]) <= Ends(accepted)
    ensures End(accepted[i].left, accepted[i].kind) in Ends(accepted) && End(accepted[i].right, accepted[i].kind) in Ends(accepted)
  {
    assert accepted[i] in accepted;
  }

  /** The two nodes of one identity. */
  method BindOne(mentions: seq<MentionEntry>, accepted: seq<Identity>, i: nat, about: string, registry: map<string, string>,
                 digest: Interval -> string)
    returns (r: Option<seq<MentionEntry>>)
    requires Bindable(accepted, registry, digest) && i < |accepted|
    requires Registered(Ends(accepted[..i]), registry) && NodesAre(mentions, Ends(accepted[..i]), about, registry, digest)
    ensures r.None? ==> KindsClash(Ends(accepted))
    ensures r.Some? ==> Registered(Ends(accepted[..i + 1]), registry)
                        && NodesAre(r.value, Ends(accepted[..i + 1]), about, registry, digest)
    ensures r.Some? ==> mentions <= r.value
  {
    ghost var all, ends := Ends(accepted), Ends(accepted[..i]);
    EndsOfPrefix(accepted, i);
    var left, right := End(accepted[i].left, accepted[i].kind), End(accepted[i].right, accepted[i].kind);
    r := Node(mentions, ends, about, left, registry, digest, all);
    if r.Some? {
      r := Node(r.value, ends + {left}, about, right, registry, digest, all);
    }
    TakeSnoc(accepted, i);
    EndsSnoc(accepted[..i], accepted[i]);
  }

  /** A binding joins two different mention nodes of one kind that are in the plan. */
  predicate Sound(b: Binding, mentions: seq<MentionEntry>) {
    b.left != b.right && HasNode(mentions, b.left, b.kind) && HasNode(mentions, b.right, b.kind) && b.quotes != []
  }

  lemma BindingsSound(accepted: seq<Identity>, mentions: seq<MentionEntry>, about: string, registry: map<string, string>,
                      digest: Interval -> string, d: Identity)
    requires Bindable(accepted, registry, digest) && d in accepted
    requires NodesAre(mentions, Ends(accepted), about, registry, digest)
    ensures Sound(BindingOf(d, about, registry, digest), mentions)
  {
    var left, right := End(d.left, d.kind), End(d.right, d.kind);
    assert left in Ends(accepted) && right in Ends(accepted);
    if NodeRef(about, d.left, registry, digest) == NodeRef(about, d.right, registry, digest) {
      NodeRefTells(about, d.left, d.right, registry, digest, Intervals(Ends(accepted), registry));
    }
  }
}
