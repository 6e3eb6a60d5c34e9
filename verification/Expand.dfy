/** One identity hop over an untrusted reader: nothing is accepted that the frozen plan does not justify. */
module Expand {
  import opened Prelude
  import opened Contracts
  import opened Ordering

  // ---- what the frozen plan and the reader say ----

  datatype Key = FormationRecord | EntityRecord | EntityKind | SourceRefKey | SourceStart | SourceEnd | OtherKey(name: string)

  type Metadata = map<Key, string>

  datatype Rel = DerivedFrom | SameEntityAs | ContainsEntry | OtherRel(name: string)

  /** A relation; `extra` is whatever else the reader attached to it. */
  datatype Link = Link(
    origin: string, target: string, rel: Rel, class_: string, why: string, evidence: string, method_: string,
    confidence: string, occurredAt: Option<string>, extra: string)

  datatype Quote = Quote(id: string, source: string, text: string, time: string, supports: seq<string>, extra: string)

  datatype Node = Node(ref: string, text: string, metadata: Metadata, extra: string)

  datatype FrozenEntry = FrozenEntry(text: string, metadata: Metadata, occurredAt: string)

  datatype Binding = Binding(id: string, left: string, right: string, evidenceIds: seq<string>)

  datatype FrozenPlan = FrozenPlan(
    about: string, entries: map<string, FrozenEntry>, proofs: map<string, Quote>,
    relations: seq<Link>, bindings: seq<Binding>)

  /** The plan with what the checks need: the cutoff, and the clock and number parsers. */
  datatype Site = Site(plan: FrozenPlan, cutoff: int, timestamp: string -> Option<int>, toInt: string -> Option<int>)

  datatype Page = Page(
    object_: Node, evidence: seq<Quote>, incoming: seq<Link>, outgoing: seq<Link>, hasMore: bool, nextCursor: Option<string>)

  /** The reader answers with any page, or raises one of the errors `expand` catches. */
  datatype Response = Raised | Returned(page: Page)

  datatype Inspection = Inspection(ref: string, cursor: Option<string>, page: Page)

  datatype Merged = Merged(object_: Node, evidence: map<string, Quote>, incoming: seq<Link>, outgoing: seq<Link>)

  datatype Group = Group(bindingId: string, relation: Link, quotes: seq<Quote>, sourceRef: string, left: string, right: string)

  datatype Refused = Pair(refs: set<string>) | Seed(ref: string)

  datatype Report = Report(groups: seq<Group>, inspections: seq<Inspection>, rejected: seq<Refused>, budgetExhausted: bool)

  // ---- the frozen registry ----

  /** `relations.get((from, to, rel))`: the last of a key wins. */
  function FindRelation(relations: seq<Link>, origin: string, target: string, rel: Rel): (r: Option<Link>)
    ensures r.Some? ==> r.value in relations && r.value.origin == origin && r.value.target == target && r.value.rel == rel
  {
    if relations == [] then None
    else
      var init, last := relations[..|relations| - 1], relations[|relations| - 1];
      assert relations == init + [last];
      if last.origin == origin && last.target == target && last.rel == rel then Some(last)
      else FindRelation(init, origin, target, rel)
  }

  /** `bindings.get(frozenset(…))`. */
  function FindBinding(bindings: seq<Binding>, key: set<string>): (r: Option<Binding>)
    ensures r.Some? ==> r.value in bindings && {r.value.left, r.value.right} == key
  {
    if bindings == [] then None
    else
      var init, last := bindings[..|bindings| - 1], bindings[|bindings| - 1];
      assert bindings == init + [last];
      if {last.left, last.right} == key then Some(last) else FindBinding(init, key)
  }

  predicate SameFields(link: Link, expected: Link) {
    && link.origin == expected.origin && link.target == expected.target && link.rel == expected.rel
    && link.class_ == expected.class_ && link.why == expected.why && link.evidence == expected.evidence
    && link.method_ == expected.method_ && link.confidence == expected.confidence
  }

  /** `relation_ok`; a frozen clock that does not parse raises. */
  function RelationOk(link: Link, site: Site): Result<bool, Refusal> {
    var found := FindRelation(site.plan.relations, link.origin, link.target, link.rel);
    if found.None? || !(link.rel.DerivedFrom? || link.rel.SameEntityAs?) then Ok(false)
    else if !SameFields(link, found.value) then Ok(false)
    else if link.occurredAt != found.value.occurredAt || link.occurredAt.None? then Ok(false)
    else if site.timestamp(link.occurredAt.value).None? then Err(ValueError)
    else Ok(site.timestamp(link.occurredAt.value).value <= site.cutoff)
  }

  predicate Before(clock: string, site: Site) {
    site.timestamp(clock).Some? && site.timestamp(clock).value <= site.cutoff
  }

  /** The link is one of the frozen relations, field for field, known by the cutoff. */
  ghost predicate Frozen(link: Link, site: Site) {
    && (link.rel.DerivedFrom? || link.rel.SameEntityAs?) && link.occurredAt.Some? && Before(link.occurredAt.value, site)
    && exists r :: r in site.plan.relations && SameFields(link, r) && r.occurredAt == link.occurredAt
  }

  lemma RelationOkIsFrozen(link: Link, site: Site)
    ensures RelationOk(link, site) == Ok(true) ==> Frozen(link, site)
  {
    if RelationOk(link, site) == Ok(true) {
      var found := FindRelation(site.plan.relations, link.origin, link.target, link.rel);
      assert found.value in site.plan.relations;
    }
  }

  predicate Matches(node: Node, ref: string, entry: FrozenEntry) {
    && node.ref == ref && node.text == entry.text
    && forall k :: k in entry.metadata ==> k in node.metadata && node.metadata[k] == entry.metadata[k]
  }

  // ---- pages of one object ----

  function AddQuotes(evidence: map<string, Quote>, quotes: seq<Quote>): map<string, Quote> {
    if quotes == [] then evidence
    else
      var last := quotes[|quotes| - 1];
      AddQuotes(evidence, quotes[..|quotes| - 1])[last.id := last]
  }

  function AddLinks(links: seq<Link>, more: seq<Link>): seq<Link> {
    if more == [] then links
    else
      var init, last := AddLinks(links, more[..|more| - 1]), more[|more| - 1];
      if last in init then init else init + [last]
  }

  function AddPage(m: Merged, page: Page): Merged {
    Merged(page.object_, AddQuotes(m.evidence, page.evidence), AddLinks(m.incoming, page.incoming),
           AddLinks(m.outgoing, page.outgoing))
  }

  /** Everything the pages of one object say together. */
  function MergePages(log: seq<Inspection>): Merged
    requires log != []
  {
    var last := log[|log| - 1].page;
    if |log| == 1 then AddPage(Merged(last.object_, map[], [], []), last) else AddPage(MergePages(log[..|log| - 1]), last)
  }

  /** The pages of one object, in order: each asked for with the cursor the one before gave, no
      cursor twice, all of them the same object as frozen. */
  predicate Chain(log: seq<Inspection>, ref: string, entry: FrozenEntry) {
    && log != [] && log[0].cursor == None
    && (forall k :: 0 <= k < |log| ==> log[k].ref == ref && log[k].page.object_ == log[0].page.object_)
    && Matches(log[0].page.object_, ref, entry)
    && (forall k :: 0 < k < |log| ==> Follows(log[k - 1], log[k]))
    && (forall i, j :: 0 < i < j < |log| ==> log[i].cursor != log[j].cursor)
  }

  predicate Follows(earlier: Inspection, later: Inspection) {
    && earlier.page.hasMore && earlier.page.nextCursor.Some? && earlier.page.nextCursor.value != ""
    && later.cursor == earlier.page.nextCursor
  }

  /** The object was paged to its end, from its beginning, and this is all of it. */
  predicate Whole(log: seq<Inspection>, lo: nat, hi: nat, ref: string, m: Merged, plan: FrozenPlan) {
    && lo < hi <= |log| && ref in plan.entries && Chain(log[lo..hi], ref, plan.entries[ref])
    && !log[hi - 1].page.hasMore && m == MergePages(log[lo..hi])
  }

  ghost predicate Complete(log: seq<Inspection>, ref: string, m: Merged, plan: FrozenPlan) {
    exists lo, hi :: Whole(log, lo, hi, ref, m, plan)
  }

  lemma WholeGrows(log: seq<Inspection>, more: seq<Inspection>, lo: nat, hi: nat, ref: string, m: Merged, plan: FrozenPlan)
    requires log <= more && Whole(log, lo, hi, ref, m, plan)
    ensures Whole(more, lo, hi, ref, m, plan)
  {
    assert more[lo..hi] == log[lo..hi];
  }

  lemma WholeMatches(log: seq<Inspection>, lo: nat, hi: nat, ref: string, m: Merged, plan: FrozenPlan)
    requires Whole(log, lo, hi, ref, m, plan)
    ensures Matches(m.object_, ref, plan.entries[ref])
  {
    assert log[lo..hi][|log[lo..hi]| - 1].page.object_ == log[lo..hi][0].page.object_;
  }

  /** The reading of one object so far: a chain that ends at a page with more, and the next cursor. */
  predicate Reading(log: seq<Inspection>, ref: string, entry: FrozenEntry, merged: Option<Merged>, cursor: Option<string>) {
    if log == [] then merged == None && cursor == None
    else
      && Chain(log, ref, entry) && merged == Some(MergePages(log))
      && log[|log| - 1].page.hasMore && log[|log| - 1].page.nextCursor == cursor && cursor.Some? && cursor.value != ""
      && forall k :: 0 < k < |log| ==> log[k].cursor != cursor
  }

  /** The cursors already asked for. */
  predicate Asked(log: seq<Inspection>, cursor: Option<string>, cursors: set<string>) {
    && (forall k :: 0 < k < |log| ==> log[k].cursor.Some? && log[k].cursor.value in cursors)
    && (cursor.Some? ==> cursor.value in cursors)
  }

  lemma ChainSnoc(log: seq<Inspection>, ref: string, entry: FrozenEntry, merged: Option<Merged>, cursor: Option<string>, page: Page)
    requires Reading(log, ref, entry, merged, cursor)
    requires Matches(page.object_, ref, entry) && (merged.Some? ==> merged.value.object_ == page.object_)
    ensures var more := log + [Inspection(ref, cursor, page)];
            && Chain(more, ref, entry)
            && MergePages(more) == AddPage(if merged.Some? then merged.value else Merged(page.object_, map[], [], []), page)
  {
    var next := Inspection(ref, cursor, page);
    var more := log + [next];
    assert more[..|more| - 1] == log && more[|more| - 1] == next;
    if log != [] {
      assert MergePages(log).object_ == log[|log| - 1].page.object_ == log[0].page.object_;
      assert more[0] == log[0];
      assert forall k :: 0 <= k < |log| ==> more[k] == log[k];
    }
  }

  /** `merged['evidence'][eid] = …`, refusing a quote that changed. */
  method TakeQuotes(evidence: map<string, Quote>, quotes: seq<Quote>) returns (r: Option<map<string, Quote>>)
    ensures r.Some? ==> r.value == AddQuotes(evidence, quotes)
    ensures r.Some? ==> forall id :: id in evidence ==> id in r.value && r.value[id] == evidence[id]
  {
    var taken := evidence;
    for i := 0 to |quotes|
      invariant taken == AddQuotes(evidence, quotes[..i])
      invariant forall id :: id in evidence ==> id in taken && taken[id] == evidence[id]
    {
      TakeSnoc(quotes, i);
      if quotes[i].id in taken && taken[quotes[i].id] != quotes[i] {
        return None;
      }
      taken := taken[quotes[i].id := quotes[i]];
    }
    TakeAll(quotes);
    return Some(taken);
  }

  method TakeLinks(links: seq<Link>, more: seq<Link>) returns (r: seq<Link>)
    ensures r == AddLinks(links, more)
  {
    r := links;
    for i := 0 to |more|
      invariant r == AddLinks(links, more[..i])
    {
      TakeSnoc(more, i);
      if more[i] !in r {
        r := r + [more[i]];
      }
    }
    TakeAll(more);
  }

  /** One page taken into what is read so far. */
  method TakePage(merged: Option<Merged>, page: Page) returns (r: Option<Merged>)
    ensures r.Some? ==> merged.Some? ==> merged.value.object_ == page.object_
    ensures r.Some? ==> r.value == AddPage(if merged.Some? then merged.value else Merged(page.object_, map[], [], []), page)
  {
    if merged.Some? && merged.value.object_ != page.object_ {
      return None;
    }
    var base := if merged.Some? then merged.value else Merged(page.object_, map[], [], []);
    var evidence := TakeQuotes(base.evidence, page.evidence);
    if evidence.None? {
      return None;
    }
    var incoming := TakeLinks(base.incoming, page.incoming);
    var outgoing := TakeLinks(base.outgoing, page.outgoing);
    return Some(Merged(page.object_, evidence.value, incoming, outgoing));
  }

  // ---- what is checked of a source, a mention and a pair ----

  type Cache = map<string, Merged>

  /** Only objects paged to their end are cached. */
  ghost predicate AllComplete(cache: Cache, log: seq<Inspection>, plan: FrozenPlan) {
    forall ref {:trigger Complete(log, ref, cache[ref], plan)} :: ref in cache ==> Complete(log, ref, cache[ref], plan)
  }

  predicate Extends(cache: Cache, more: Cache) {
    forall ref :: ref in cache ==> ref in more && more[ref] == cache[ref]
  }

  predicate IsOriginal(m: Metadata) {
    FormationRecord in m && m[FormationRecord] == "original_source"
  }

  predicate IsMention(m: Metadata) {
    EntityRecord in m && m[EntityRecord] == "mention"
  }

  predicate ReportsClock(links: seq<Link>, ref: string, clock: string) {
    exists i :: 0 <= i < |links| && links[i].rel.ContainsEntry? && links[i].target == ref && links[i].occurredAt == Some(clock)
  }

  /** A frozen original whose report clock the reader confirms and the cutoff admits. */
  predicate SourceFits(ref: string, m: Merged, entry: FrozenEntry, site: Site) {
    IsOriginal(entry.metadata) && ReportsClock(m.incoming, ref, entry.occurredAt) && Before(entry.occurredAt, site)
  }

  predicate SourceProven(ref: string, cache: Cache, site: Site) {
    ref in cache && ref in site.plan.entries && SourceFits(ref, cache[ref], site.plan.entries[ref], site)
  }

  predicate Interval(text: string, start: int, end: int, part: string) {
    0 <= start < end <= |text| && text[start..end] == part
  }

  predicate Linked(links: seq<Link>, target: string, site: Site) {
    exists i :: 0 <= i < |links| && LinkedBy(links[i], target, site)
  }

  predicate LinkedBy(link: Link, target: string, site: Site) {
    link.target == target && link.rel.DerivedFrom? && RelationOk(link, site) == Ok(true)
  }

  /** A mention that occupies its recorded interval of an original, to which it is linked. */
  predicate MentionFits(m: Merged, origin: Merged, site: Site) {
    var meta := m.object_.metadata;
    && IsMention(meta) && SourceRefKey in meta && SourceStart in meta && SourceEnd in meta
    && Linked(m.outgoing, meta[SourceRefKey], site)
    && site.toInt(meta[SourceStart]).Some? && site.toInt(meta[SourceEnd]).Some?
    && Interval(origin.object_.text, site.toInt(meta[SourceStart]).value, site.toInt(meta[SourceEnd]).value, m.object_.text)
  }

  predicate MentionProven(ref: string, cache: Cache, site: Site) {
    && ref in cache && SourceRefKey in cache[ref].object_.metadata
    && SourceProven(cache[ref].object_.metadata[SourceRefKey], cache, site)
    && MentionFits(cache[ref], cache[cache[ref].object_.metadata[SourceRefKey]], site)
  }

  predicate SameQuote(q: Quote, expected: Quote) {
    && q.id == expected.id && q.source == expected.source && q.text == expected.text && q.time == expected.time
    && q.supports == expected.supports
  }

  /** The quote returned under `id` is the frozen proof of that name, in time and literal. */
  predicate QuoteProven(id: string, returned: map<string, Quote>, cache: Cache, site: Site) {
    && id in returned && id in site.plan.proofs && SameQuote(returned[id], site.plan.proofs[id])
    && Before(returned[id].time, site) && SourceProven(returned[id].source, cache, site)
    && Within(returned[id].text, cache[returned[id].source].object_.text)
  }

  predicate QuotesProven(ids: seq<string>, returned: map<string, Quote>, cache: Cache, site: Site) {
    forall k :: 0 <= k < |ids| ==> QuoteProven(ids[k], returned, cache, site)
  }

  predicate SameKind(a: Metadata, b: Metadata) {
    EntityKind in a && EntityKind in b && a[EntityKind] == b[EntityKind]
  }

  function ReturnedFor(b: Binding, cache: Cache): map<string, Quote> {
    (if b.left in cache then cache[b.left].evidence else map[]) + (if b.right in cache then cache[b.right].evidence else map[])
  }

  /** Both ends are borne-out mentions, of one kind. */
  predicate EndsProven(b: Binding, cache: Cache, site: Site) {
    && MentionProven(b.left, cache, site) && MentionProven(b.right, cache, site)
    && SameKind(cache[b.left].object_.metadata, cache[b.right].object_.metadata)
  }

  /** What an identity link must meet, found while looking at `ref`. */
  predicate Acceptable(b: Binding, link: Link, ref: string, cache: Cache, site: Site) {
    && link.rel.SameEntityAs? && ref in {link.origin, link.target} && RelationOk(link, site) == Ok(true)
    && FindBinding(site.plan.bindings, {link.origin, link.target}) == Some(b)
    && EndsProven(b, cache, site)
    && b.evidenceIds != [] && QuotesProven(b.evidenceIds, ReturnedFor(b, cache), cache, site)
  }

  function QuotesOf(ids: seq<string>, returned: map<string, Quote>): (r: seq<Quote>)
    requires AllReturned(ids, returned)
    ensures |r| == |ids| && forall k :: 0 <= k < |r| ==> r[k] == returned[ids[k]]
  {
    seq(|ids|, k requires 0 <= k < |ids| => returned[ids[k]])
  }

  /** The group is what an acceptable link amounts to. */
  ghost predicate Justifies(b: Binding, ref: string, g: Group, cache: Cache, site: Site) {
    && Acceptable(b, g.relation, ref, cache, site) && g.bindingId == b.id && g.left == b.left && g.right == b.right
    && AllReturned(b.evidenceIds, ReturnedFor(b, cache))
    && g.quotes == QuotesOf(b.evidenceIds, ReturnedFor(b, cache))
  }

  ghost predicate Proven(g: Group, cache: Cache, site: Site) {
    exists b, ref :: Justifies(b, ref, g, cache, site)
  }

  lemma SourceKeeps(ref: string, cache: Cache, more: Cache, site: Site)
    requires Extends(cache, more) && SourceProven(ref, cache, site)
    ensures SourceProven(ref, more, site)
  {
  }

  lemma MentionKeeps(ref: string, cache: Cache, more: Cache, site: Site)
    requires Extends(cache, more) && MentionProven(ref, cache, site)
    ensures MentionProven(ref, more, site)
  {
    SourceKeeps(cache[ref].object_.metadata[SourceRefKey], cache, more, site);
  }

  lemma QuotesKeep(ids: seq<string>, returned: map<string, Quote>, cache: Cache, more: Cache, site: Site)
    requires Extends(cache, more) && QuotesProven(ids, returned, cache, site)
    ensures QuotesProven(ids, returned, more, site)
  {
    forall k | 0 <= k < |ids|
      ensures QuoteProven(ids[k], returned, more, site)
    {
      assert QuoteProven(ids[k], returned, cache, site);
      SourceKeeps(returned[ids[k]].source, cache, more, site);
    }
  }

  lemma GroupKeeps(g: Group, cache: Cache, more: Cache, site: Site)
    requires Extends(cache, more) && Proven(g, cache, site)
    ensures Proven(g, more, site)
  {
    var b, ref :| Justifies(b, ref, g, cache, site);
    MentionKeeps(b.left, cache, more, site);
    MentionKeeps(b.right, cache, more, site);
    assert ReturnedFor(b, cache) == ReturnedFor(b, more);
    QuotesKeep(b.evidenceIds, ReturnedFor(b, cache), cache, more, site);
    assert Justifies(b, ref, g, more, site);
  }

  ghost predicate AllProven(groups: seq<Group>, cache: Cache, site: Site) {
    forall g {:trigger Proven(g, cache, site)} :: g in groups ==> Proven(g, cache, site)
  }

  predicate Grouped(groups: seq<Group>, key: set<string>) {
    exists g :: g in groups && {g.left, g.right} == key
  }

  /** Every pair looked at came out once: as one group or as a refusal, never both. */
  ghost predicate Accounted(groups: seq<Group>, rejected: seq<Refused>, seen: set<set<string>>) {
    && (forall key :: key in seen <==> Grouped(groups, key) || Pair(key) in rejected)
    && (forall key :: Grouped(groups, key) ==> Pair(key) !in rejected)
    && PairsDistinct(groups)
  }

  lemma AccountGroup(groups: seq<Group>, rejected: seq<Refused>, seen: set<set<string>>, g: Group)
    requires Accounted(groups, rejected, seen) && {g.left, g.right} !in seen
    ensures Accounted(groups + [g], rejected, seen + {{g.left, g.right}})
  {
    var more := groups + [g];
    forall key
      ensures Grouped(more, key) <==> Grouped(groups, key) || key == {g.left, g.right}
    {
      if Grouped(groups, key) {
        var h :| h in groups && {h.left, h.right} == key;
        assert h in more;
      }
      assert g in more;
    }
    forall i | 0 <= i < |groups|
      ensures {groups[i].left, groups[i].right} != {g.left, g.right}
    {
      assert groups[i] in groups;
    }
  }

  lemma AccountRefusal(groups: seq<Group>, rejected: seq<Refused>, seen: set<set<string>>, key: set<string>)
    requires Accounted(groups, rejected, seen) && key !in seen
    ensures Accounted(groups, rejected + [Pair(key)], seen + {key})
  {
  }

  lemma AccountSeed(groups: seq<Group>, rejected: seq<Refused>, seen: set<set<string>>, seed: string)
    requires Accounted(groups, rejected, seen)
    ensures Accounted(groups, rejected + [Seed(seed)], seen)
  {
  }

  ghost predicate AlwaysRaises(call: nat -> Response) {
    forall n :: call(n).Raised?
  }

  ghost predicate NeverRaises(call: nat -> Response) {
    forall n :: call(n).Returned?
  }

  /** How many of the first n calls raised. */
  function Raises(call: nat -> Response, n: nat): (r: nat)
    ensures r <= n
    ensures NeverRaises(call) ==> r == 0
    ensures AlwaysRaises(call) ==> r == n
  {
    if n == 0 then 0 else Raises(call, n - 1) + if call(n - 1).Raised? then 1 else 0
  }

  predicate KnownTo(ref: string, plan: FrozenPlan) {
    ref in plan.entries && plan.about + ":" <= ref
  }

  /** The seeds of a request the plan knows: those the reader is asked about. */
  function KnownSeeds(sourceRefs: seq<string>, plan: FrozenPlan): set<string> {
    set ref | ref in sourceRefs && KnownTo(ref, plan)
  }

  lemma KnownSnoc(refs: seq<string>, seed: string, plan: FrozenPlan)
    ensures seed in refs ==> KnownSeeds(refs + [seed], plan) == KnownSeeds(refs, plan)
    ensures seed !in refs ==>
              |KnownSeeds(refs + [seed], plan)| == |KnownSeeds(refs, plan)| + if KnownTo(seed, plan) then 1 else 0
  {
    var before, after := KnownSeeds(refs, plan), KnownSeeds(refs + [seed], plan);
    assert after == before + if KnownTo(seed, plan) then {seed} else {};
  }

  predicate PairsDistinct(groups: seq<Group>) {
    forall i, j :: 0 <= i < j < |groups| ==> {groups[i].left, groups[i].right} != {groups[j].left, groups[j].right}
  }

  // ---- the expansion ----

  class Expansion {
    const site: Site
    const maxCalls: nat
    const call: nat -> Response

    /** Every call made of the reader; `inspections` holds those that returned. */
    var calls: nat
    ghost var raised: nat
    var inspections: seq<Inspection>
    var cache: Cache
    var groups: seq<Group>
    var rejected: seq<Refused>
    var seen: set<set<string>>

    constructor (site: Site, maxCalls: nat, call: nat -> Response)
      ensures this.site == site && this.maxCalls == maxCalls && this.call == call
      ensures Valid() && groups == [] && rejected == [] && cache == map[] && inspections == [] && calls == 0
    {
      this.site, this.maxCalls, this.call := site, maxCalls, call;
      calls, raised, inspections, cache, groups, rejected, seen := 0, 0, [], map[], [], [], {};
    }

    ghost predicate Budgeted()
      reads this
    {
      |inspections| <= maxCalls && calls == |inspections| + raised && raised == Raises(call, calls)
    }

    ghost predicate CacheWhole()
      reads this
    {
      AllComplete(cache, inspections, site.plan)
    }

    ghost predicate GroupsProven()
      reads this
    {
      AllProven(groups, cache, site) && Accounted(groups, rejected, seen)
    }

    /** What every inspection keeps, whatever is returned. */
    ghost predicate Readable()
      reads this
    {
      Budgeted() && CacheWhole()
    }

    ghost predicate Valid()
      reads this
    {
      Readable() && GroupsProven()
    }

    predicate Known(ref: string) {
      KnownTo(ref, site.plan)
    }

    /** The calls one inspection costs beyond the budget's count when the reader raises. */
    function Uncounted(ref: string, counted: nat): nat {
      if Known(ref) && counted < maxCalls then 1 else 0
    }

    twostate predicate Grew()
      reads this
    {
      Extends(old(cache), cache) && old(inspections) <= inspections && old(raised) <= raised
    }

    /** At most one call raised, and then the operation failed. */
    twostate predicate Spent(failed: bool)
      reads this
    {
      old(raised) <= raised <= old(raised) + if failed then 1 else 0
    }

    /** Every call that raised left a refusal behind, but for one still to be recorded. */
    twostate predicate Excused(pending: nat)
      reads this
    {
      old(rejected) <= rejected && raised - old(raised) <= |rejected| - |old(rejected)| + pending
    }

    /** `inspect`: the cache answers, or the object is paged to its end within the shared budget. */
    method Inspect(ref: string) returns (r: Result<Merged, Refusal>)
      requires Readable()
      modifies `cache, `inspections, `calls, `raised
      ensures Readable() && Grew() && Spent(r.Err?)
      ensures r.Ok? ==> ref in site.plan.entries && ref in cache && cache[ref] == r.value
      ensures r.Ok? ==> Matches(r.value.object_, ref, site.plan.entries[ref])
      ensures r.Err? ==> cache == old(cache) && ref !in cache
      ensures ref !in old(cache) && AlwaysRaises(call) ==> inspections == old(inspections) && cache == old(cache)
      ensures ref !in old(cache) && AlwaysRaises(call) ==> calls == old(calls) + Uncounted(ref, |inspections|)
    {
      if ref in cache {
        assert Complete(inspections, ref, cache[ref], site.plan);
        ghost var lo, hi :| Whole(inspections, lo, hi, ref, cache[ref], site.plan);
        WholeMatches(inspections, lo, hi, ref, cache[ref], site.plan);
        return Ok(cache[ref]);
      }
      if !Known(ref) {
        return Err(ValueError);
      }
      r := ReadPages(ref);
    }

    /** An object not yet read: cached only when its last page was reached. */
    method ReadPages(ref: string) returns (r: Result<Merged, Refusal>)
      requires Readable() && ref in site.plan.entries && ref !in cache
      modifies `cache, `inspections, `calls, `raised
      ensures Readable() && Grew() && Spent(r.Err?)
      ensures r.Ok? ==> cache == old(cache)[ref := r.value] && Matches(r.value.object_, ref, site.plan.entries[ref])
      ensures r.Err? ==> cache == old(cache)
      ensures AlwaysRaises(call) ==> r.Err? && inspections == old(inspections)
      ensures AlwaysRaises(call) ==> calls == old(calls) + if |inspections| < maxCalls then 1 else 0
    {
      ghost var run;
      r, run := FetchPages(ref);
      LogGrows(cache, old(inspections), inspections, site.plan);
      if r.Ok? {
        FetchedComplete(old(inspections), run, ref, r.value, site.plan);
        cache := cache[ref := r.value];
      }
    }

    /** One page: asked for, counted if it came, and taken if it fits what was read before. */
    method FetchPage(ref: string, merged: Option<Merged>, cursor: Option<string>, cursors: set<string>, ghost run: seq<Inspection>)
      returns (r: Result<Page, Refusal>, next: Option<Merged>, ghost more: seq<Inspection>)
      requires Budgeted() && |inspections| < maxCalls && ref in site.plan.entries
      requires Reading(run, ref, site.plan.entries[ref], merged, cursor) && Asked(run, cursor, cursors)
      modifies `inspections, `calls, `raised
      ensures Budgeted() && run <= more && inspections == old(inspections) + more[|run|..] && Spent(r.Err?)
      ensures AlwaysRaises(call) ==> r.Err? && more == run && calls == old(calls) + 1
      ensures r.Ok? ==> |inspections| == |old(inspections)| + 1 && next.Some? && Taken(more, ref, r.value, next.value, cursors)
    {
      more, next := run, None;
      var response := call(calls);
      calls := calls + 1;
      if response.Raised? {
        raised := raised + 1;
        return Err(ValueError), next, more;
      }
      inspections := inspections + [Inspection(ref, cursor, response.page)];
      more := run + [Inspection(ref, cursor, response.page)];
      next := Absorb(run, ref, site.plan.entries[ref], merged, cursor, cursors, response.page);
      if next.None? {
        return Err(ValueError), next, more;
      }
      return Ok(response.page), next, more;
    }

    /** What is read after a page that fits: all of the object, or so far. */
    ghost predicate Taken(run: seq<Inspection>, ref: string, page: Page, merged: Merged, cursors: set<string>)
      requires ref in site.plan.entries
    {
      if page.hasMore then
        && page.nextCursor.Some? && Reading(run, ref, site.plan.entries[ref], Some(merged), page.nextCursor)
        && Asked(run, page.nextCursor, cursors + {page.nextCursor.value})
      else Read(run, ref, merged)
    }

    ghost predicate Read(run: seq<Inspection>, ref: string, merged: Merged)
      requires ref in site.plan.entries
    {
      Chain(run, ref, site.plan.entries[ref]) && !run[|run| - 1].page.hasMore && merged == MergePages(run)
    }

    /** The paging loop of `inspect`: it stops at the last page, at a page that does not fit, or
        when the shared budget is spent. */
    method FetchPages(ref: string) returns (r: Result<Merged, Refusal>, ghost run: seq<Inspection>)
      requires Budgeted() && ref in site.plan.entries
      modifies `inspections, `calls, `raised
      ensures Budgeted() && inspections == old(inspections) + run && Spent(r.Err?)
      ensures r.Ok? ==> Read(run, ref, r.value)
      ensures AlwaysRaises(call) ==> r.Err? && run == []
      ensures AlwaysRaises(call) ==> calls == old(calls) + if |inspections| < maxCalls then 1 else 0
    {
      run := [];
      var merged: Option<Merged>, cursor: Option<string>, cursors: set<string> := None, None, {};
      while |inspections| < maxCalls
        invariant inspections == old(inspections) + run && raised == old(raised) && Budgeted()
        invariant Reading(run, ref, site.plan.entries[ref], merged, cursor) && Asked(run, cursor, cursors)
        invariant AlwaysRaises(call) ==> run == [] && calls == old(calls)
        decreases maxCalls - |inspections|
      {
        ghost var before := run;
        var page, next;
        page, next, run := FetchPage(ref, merged, cursor, cursors, run);
        assert run == before + run[|before|..];
        if page.Err? {
          return Err(ValueError), run;
        }
        if !page.value.hasMore {
          return Ok(next.value), run;
        }
        merged, cursor, cursors := next, page.value.nextCursor, cursors + {page.value.nextCursor.value};
      }
      return Err(ValueError), run;
    }

    /** `source`: succeeds exactly on a frozen original the reader confirms in time. */
    method Source(ref: string) returns (r: Result<Merged, Refusal>)
      requires Readable()
      modifies `cache, `inspections, `calls, `raised
      ensures Readable() && Grew() && Spent(r.Err?)
      ensures r.Ok? <==> SourceProven(ref, cache, site)
      ensures r.Ok? ==> r.value == cache[ref]
      ensures ref !in old(cache) && AlwaysRaises(call) ==> r.Err? && inspections == old(inspections) && cache == old(cache)
      ensures ref !in old(cache) && AlwaysRaises(call) ==> calls == old(calls) + Uncounted(ref, |inspections|)
    {
      r := Inspect(ref);
      if r.Ok? {
        if !SourceFits(ref, r.value, site.plan.entries[ref], site) {
          return Err(ValueError);
        }
      }
    }

    /** `mention`: succeeds only on a mention the reader bears out, and always on one when the
        frozen clocks parse. */
    method Mention(ref: string) returns (r: Result<Merged, Refusal>)
      requires Readable()
      modifies `cache, `inspections, `calls, `raised
      ensures Readable() && Grew() && Spent(r.Err?)
      ensures r.Ok? ==> MentionProven(ref, cache, site) && r.value == cache[ref]
      ensures r.Err? && ClocksParse(site) ==> !MentionProven(ref, cache, site)
    {
      r := Inspect(ref);
      if r.Err? {
        return;
      }
      var meta := r.value.object_.metadata;
      if !IsMention(meta) || SourceRefKey !in meta {
        return Err(ValueError);
      }
      var origin := Source(meta[SourceRefKey]);
      if origin.Err? {
        return Err(ValueError);
      }
      var fits := FitsOrigin(r.value, origin.value, site);
      return if fits then r else Err(ValueError);
    }

    /** One quote a binding names: returned, frozen, in time, and literal in a confirmed original. */
    method TakeQuote(id: string, returned: map<string, Quote>) returns (r: Result<Quote, Refusal>)
      requires Readable()
      modifies `cache, `inspections, `calls, `raised
      ensures Readable() && Grew() && Spent(r.Err?)
      ensures r.Ok? <==> QuoteProven(id, returned, cache, site)
      ensures r.Ok? ==> id in returned && r.value == returned[id]
    {
      if id !in site.plan.proofs || id !in returned || !SameQuote(returned[id], site.plan.proofs[id])
         || !Before(returned[id].time, site)
      {
        return Err(ValueError);
      }
      var original := Source(returned[id].source);
      if original.Err? || !Within(returned[id].text, original.value.object_.text) {
        return Err(ValueError);
      }
      return Ok(returned[id]);
    }

    /** The quotes a binding names, each returned, frozen, in time and literal. */
    method CollectQuotes(b: Binding) returns (r: Result<seq<Quote>, Refusal>)
      requires Readable() && b.left in cache && b.right in cache
      modifies `cache, `inspections, `calls, `raised
      ensures Readable() && Grew() && Spent(r.Err?)
      ensures r.Ok? <==> QuotesProven(b.evidenceIds, ReturnedFor(b, old(cache)), cache, site)
      ensures r.Ok? ==> AllReturned(b.evidenceIds, ReturnedFor(b, old(cache)))
                        && r.value == QuotesOf(b.evidenceIds, ReturnedFor(b, old(cache)))
    {
      var returned, quoted, k := cache[b.left].evidence + cache[b.right].evidence, [], 0;
      assert returned == ReturnedFor(b, cache);
      while k < |b.evidenceIds|
        invariant 0 <= k <= |b.evidenceIds| && Readable() && Grew() && Spent(false)
        invariant Quoted(b.evidenceIds, k, returned, quoted, cache, site)
      {
        ghost var before := cache;
        var quote := TakeQuote(b.evidenceIds[k], returned);
        ProvenSoFar(b.evidenceIds, k, returned, before, cache, site);
        if quote.Err? {
          return Err(ValueError);
        }
        quoted, k := quoted + [quote.value], k + 1;
      }
      return Ok(quoted);
    }

    /** The two ends of a binding: borne-out mentions of one kind. */
    method JudgeEnds(b: Binding) returns (ok: bool)
      requires Readable()
      modifies `cache, `inspections, `calls, `raised
      ensures Readable() && Grew() && Spent(!ok)
      ensures ok ==> EndsProven(b, cache, site)
      ensures !ok && ClocksParse(site) ==> !EndsProven(b, cache, site)
    {
      var left := Mention(b.left);
      if left.Err? {
        return false;
      }
      ghost var before := cache;
      var right := Mention(b.right);
      if right.Err? {
        return false;
      }
      MentionKeeps(b.left, before, cache, site);
      ok := SameKind(left.value.object_.metadata, right.value.object_.metadata);
    }

    /** One identity link, judged by everything it must meet. */
    method Judge(link: Link, ref: string, seed: string) returns (r: Result<Group, Refusal>)
      requires Readable() && link.rel.SameEntityAs?
      modifies `cache, `inspections, `calls, `raised
      ensures Readable() && Grew() && Spent(r.Err?)
      ensures r.Ok? ==> Proven(r.value, cache, site) && r.value.sourceRef == seed && r.value.relation == link
                        && {r.value.left, r.value.right} == {link.origin, link.target}
      ensures r.Err? && ClocksParse(site) ==> forall b :: !Acceptable(b, link, ref, cache, site)
    {
      var key := {link.origin, link.target};
      var binding := FindBinding(site.plan.bindings, key);
      if binding.None? || ref !in key || RelationOk(link, site) != Ok(true) {
        return Err(ValueError);
      }
      var b := binding.value;
      var ends := JudgeEnds(b);
      if !ends {
        return Err(ValueError);
      }
      ghost var before := cache;
      var quotes := CollectQuotes(b);
      MentionKeeps(b.left, before, cache, site);
      MentionKeeps(b.right, before, cache, site);
      assert ReturnedFor(b, before) == ReturnedFor(b, cache);
      if quotes.Err? || quotes.value == [] {
        return Err(ValueError);
      }
      var group := Group(b.id, link, quotes.value, seed, b.left, b.right);
      assert Justifies(b, ref, group, cache, site);
      return Ok(group);
    }

    /** Groups only ever come from the seed at hand. */
    twostate predicate Advanced(seed: string)
      reads this
    {
      && Grew() && old(groups) <= groups && old(seen) <= seen
      && forall k :: |old(groups)| <= k < |groups| ==> groups[k].sourceRef == seed
    }

    /** One identity link: looked at once, then a group or a refusal. */
    method Consider(link: Link, ref: string, seed: string)
      requires Valid() && link.rel.SameEntityAs?
      modifies this
      ensures Valid() && Advanced(seed) && Excused(0) && {link.origin, link.target} in seen
    {
      var key := {link.origin, link.target};
      if key in seen {
        return;
      }
      var judged := Judge(link, ref, seed);
      CacheGrows(groups, old(cache), cache, site);
      Settle(judged, key);
    }

    /** One judgement recorded under its pair. */
    method Settle(judged: Result<Group, Refusal>, key: set<string>)
      requires Valid() && key !in seen
      requires judged.Ok? ==> Proven(judged.value, cache, site) && {judged.value.left, judged.value.right} == key
      modifies `groups, `rejected, `seen
      ensures Valid() && seen == old(seen) + {key}
      ensures groups == old(groups) + if judged.Ok? then [judged.value] else []
      ensures rejected == old(rejected) + if judged.Ok? then [] else [Pair(key)]
    {
      if judged.Ok? {
        AccountGroup(groups, rejected, seen, judged.value);
        groups := groups + [judged.value];
      } else {
        AccountRefusal(groups, rejected, seen, key);
        rejected := rejected + [Pair(key)];
      }
      seen := seen + {key};
    }

    /** Every identity link returned with one mention. */
    method ConsiderAll(links: seq<Link>, ref: string, seed: string)
      requires Valid()
      modifies this
      ensures Valid() && Advanced(seed) && Excused(0)
      ensures forall link :: link in links && link.rel.SameEntityAs? ==> {link.origin, link.target} in seen
    {
      for i := 0 to |links|
        invariant Valid() && Advanced(seed) && Excused(0)
        invariant forall k :: 0 <= k < i && links[k].rel.SameEntityAs? ==> {links[k].origin, links[k].target} in seen
      {
        if links[i].rel.SameEntityAs? {
          Consider(links[i], ref, seed);
        }
      }
    }

    /** The frozen, timely links by which mentions claim this original. */
    method Adjacent(links: seq<Link>, seed: string) returns (r: Result<seq<Link>, Refusal>)
      ensures r.Ok? ==> forall link :: link in r.value <==> link in links && LinkedBy(link, seed, site)
      ensures r.Err? ==> !ClocksParse(site)
    {
      var adjacent := [];
      for i := 0 to |links|
        invariant forall link :: link in adjacent <==> link in links[..i] && LinkedBy(link, seed, site)
      {
        if links[i].rel.DerivedFrom? && links[i].target == seed {
          var ok := RelationOk(links[i], site);
          if ok.Err? {
            if ClocksParse(site) { RelationNeverRaises(links[i], site); }
            return Err(ValueError);
          }
          if ok.value {
            adjacent := adjacent + [links[i]];
          }
        }
      }
      TakeAll(links);
      return Ok(adjacent);
    }

    /** One mention of the seed: its identity links, if it can be read and borne out. */
    method FollowEdge(ref: string, seed: string) returns (ok: bool)
      requires Valid()
      modifies this
      ensures Valid() && Advanced(seed) && Excused(if ok then 0 else 1)
    {
      if ref !in site.plan.entries || !IsMention(site.plan.entries[ref].metadata) {
        return true;
      }
      var endpoint := Mention(ref);
      CacheGrows(groups, old(cache), cache, site);
      if endpoint.Err? {
        return false;
      }
      ConsiderAll(endpoint.value.outgoing + endpoint.value.incoming, ref, seed);
      return true;
    }

    /** One seed; the first mention that cannot be read or borne out ends it. */
    method ExpandSeed(seed: string) returns (ok: bool)
      requires Valid()
      modifies this
      ensures Valid() && Advanced(seed) && Excused(if ok then 0 else 1)
      ensures old(cache) == map[] && AlwaysRaises(call) ==>
                cache == map[] && inspections == old(inspections) && calls == old(calls) + Uncounted(seed, |inspections|)
    {
      var origin := Source(seed);
      CacheGrows(groups, old(cache), cache, site);
      if origin.Err? {
        return false;
      }
      var adjacent := Adjacent(origin.value.incoming, seed);
      if adjacent.Err? {
        return false;
      }
      var edges := Sort(adjacent.value, OriginLe);
      for i := 0 to |edges|
        invariant Valid() && Advanced(seed) && Excused(0)
      {
        var taken := FollowEdge(edges[i].origin, seed);
        if !taken {
          return false;
        }
      }
      return true;
    }

    /** One seed not tried before; a failure is recorded as a refusal of the seed. */
    method TrySeed(seed: string)
      requires Valid() && raised <= |rejected|
      modifies this
      ensures Valid() && Advanced(seed) && raised <= |rejected|
      ensures old(cache) == map[] && old(inspections) == [] && AlwaysRaises(call) && maxCalls > 0 ==>
                cache == map[] && inspections == [] && calls == old(calls) + if Known(seed) then 1 else 0
    {
      var ok := ExpandSeed(seed);
      if !ok {
        AccountSeed(groups, rejected, seen, seed);
        rejected := rejected + [Seed(seed)];
      }
    }

    /** Every seed once, in the order given. */
    method Run(sourceRefs: seq<string>)
      requires Valid() && cache == map[] && groups == [] && rejected == [] && inspections == [] && calls == 0
      modifies this
      ensures Valid() && raised <= |rejected| && forall g :: g in groups ==> g.sourceRef in sourceRefs
      ensures AlwaysRaises(call) && maxCalls > 0 ==> calls == |KnownSeeds(sourceRefs, site.plan)| && inspections == []
    {
      var tried: set<string> := {};
      assert KnownSeeds([], site.plan) == {};
      for i := 0 to |sourceRefs|
        invariant Valid() && raised <= |rejected| && forall g :: g in groups ==> g.sourceRef in sourceRefs
        invariant forall ref :: ref in tried <==> ref in sourceRefs[..i]
        invariant AlwaysRaises(call) && maxCalls > 0 ==>
                    cache == map[] && inspections == [] && calls == |KnownSeeds(sourceRefs[..i], site.plan)|
      {
        var seed := sourceRefs[i];
        TakeSnoc(sourceRefs, i);
        KnownSnoc(sourceRefs[..i], seed, site.plan);
        if seed !in tried {
          ghost var before := groups;
          tried := tried + {seed};
          TrySeed(seed);
          GroupsFrom(before, groups, seed, sourceRefs);
        }
      }
      TakeAll(sourceRefs);
    }
  }

  lemma GroupsFrom(before: seq<Group>, groups: seq<Group>, seed: string, sourceRefs: seq<string>)
    requires before <= groups && seed in sourceRefs && forall g :: g in before ==> g.sourceRef in sourceRefs
    requires forall k :: |before| <= k < |groups| ==> groups[k].sourceRef == seed
    ensures forall g :: g in groups ==> g.sourceRef in sourceRefs
  {
    forall g | g in groups
      ensures g.sourceRef in sourceRefs
    {
      var k :| 0 <= k < |groups| && groups[k] == g;
      if k < |before| { assert groups[k] == before[k]; }
    }
  }

  /** `expand`: whatever the reader answers, every group is proven, no pair comes twice, only whole
      objects are cached, and no more than `maxCalls` answers are counted. The calls made stay within
      the budget exactly when those that raised fit into what the answers left of it, so always when
      none raises; and each one that raised is among the refusals. */
  method Expand(plan: FrozenPlan, sourceRefs: seq<string>, asOf: string, call: nat -> Response, maxCalls: int, maxBytes: int,
                timestamp: string -> Option<int>, toInt: string -> Option<int>)
    returns (r: Result<Report, Refusal>, calls: nat, ghost raised: nat, ghost cache: Cache)
    ensures r.Ok? <==> maxCalls >= 1 && maxBytes >= 1 && timestamp(asOf).Some?
    ensures r.Ok? ==>
              && |r.value.inspections| <= maxCalls && calls == |r.value.inspections| + raised
              && (r.value.budgetExhausted <==> |r.value.inspections| >= maxCalls)
              && AllProven(r.value.groups, cache, Site(plan, timestamp(asOf).value, timestamp, toInt))
              && AllComplete(cache, r.value.inspections, plan)
              && PairsDistinct(r.value.groups)
              && forall g :: g in r.value.groups ==> g.sourceRef in sourceRefs
    ensures r.Ok? ==> raised == Raises(call, calls) && calls <= maxCalls + |r.value.rejected|
    ensures r.Ok? ==> (calls <= maxCalls <==> Raises(call, calls) <= maxCalls - |r.value.inspections|)
    ensures r.Ok? && NeverRaises(call) ==> calls <= maxCalls
    ensures r.Ok? && AlwaysRaises(call) ==>
              calls == |KnownSeeds(sourceRefs, plan)| && r.value.inspections == [] && !r.value.budgetExhausted
  {
    calls, raised, cache := 0, 0, map[];
    if maxCalls < 1 || maxBytes < 1 || timestamp(asOf).None? {
      return Err(ValueError), calls, raised, cache;
    }
    var expansion := new Expansion(Site(plan, timestamp(asOf).value, timestamp, toInt), maxCalls, call);
    expansion.Run(sourceRefs);
    var report := Report(expansion.groups, expansion.inspections, expansion.rejected, |expansion.inspections| >= maxCalls);
    return Ok(report), expansion.calls, expansion.raised, expansion.cache;
  }

  /** The budget counts answers, not calls: a reader that raises on every call is called once for
      each different seed the plan knows, so more often than any budget exactly when there are more
      of them, and nothing says the budget is spent. */
  method RaisedCallsEscapeBudget(plan: FrozenPlan, sourceRefs: seq<string>, asOf: string, maxCalls: nat,
                                 timestamp: string -> Option<int>, toInt: string -> Option<int>)
    returns (calls: nat, exhausted: bool)
    requires timestamp(asOf).Some? && maxCalls >= 1
    ensures calls == |KnownSeeds(sourceRefs, plan)| && !exhausted
    ensures calls > maxCalls <==> |KnownSeeds(sourceRefs, plan)| > maxCalls
  {
    var r;
    ghost var raised, cache;
    r, calls, raised, cache := Expand(plan, sourceRefs, asOf, (n: nat) => Raised, maxCalls, 10000, timestamp, toInt);
    exhausted := r.value.budgetExhausted;
  }

  // ---- what a proven group means in the frozen plan ----

  /** The mention's own text is a literal interval of a frozen original known by the cutoff. */
  ghost predicate LiteralMention(ref: string, site: Site) {
    ref in site.plan.entries && exists origin, start, end :: OccupiesIn(ref, origin, start, end, site)
  }

  predicate OccupiesIn(ref: string, origin: string, start: int, end: int, site: Site) {
    && ref in site.plan.entries && origin in site.plan.entries
    && IsOriginal(site.plan.entries[origin].metadata) && Before(site.plan.entries[origin].occurredAt, site)
    && Interval(site.plan.entries[origin].text, start, end, site.plan.entries[ref].text)
  }

  predicate LiteralQuote(q: Quote, site: Site) {
    && q.source in site.plan.entries && IsOriginal(site.plan.entries[q.source].metadata)
    && Before(site.plan.entries[q.source].occurredAt, site) && Before(q.time, site)
    && Within(q.text, site.plan.entries[q.source].text)
    && q.id in site.plan.proofs && SameQuote(q, site.plan.proofs[q.id])
  }

  lemma CachedMatches(cache: Cache, log: seq<Inspection>, ref: string, plan: FrozenPlan)
    requires AllComplete(cache, log, plan) && ref in cache
    ensures ref in plan.entries && Matches(cache[ref].object_, ref, plan.entries[ref])
  {
    assert Complete(log, ref, cache[ref], plan);
    var lo, hi :| Whole(log, lo, hi, ref, cache[ref], plan);
    WholeMatches(log, lo, hi, ref, cache[ref], plan);
  }

  lemma MentionIsLiteral(ref: string, cache: Cache, log: seq<Inspection>, site: Site)
    requires AllComplete(cache, log, site.plan) && MentionProven(ref, cache, site)
    ensures LiteralMention(ref, site) && IsMention(cache[ref].object_.metadata)
  {
    var meta := cache[ref].object_.metadata;
    CachedMatches(cache, log, ref, site.plan);
    CachedMatches(cache, log, meta[SourceRefKey], site.plan);
    assert OccupiesIn(ref, meta[SourceRefKey], site.toInt(meta[SourceStart]).value, site.toInt(meta[SourceEnd]).value, site);
  }

  /** The plan names its proofs by their ids. */
  predicate ProofsNamed(plan: FrozenPlan) {
    forall id :: id in plan.proofs ==> plan.proofs[id].id == id
  }

  /** A returned group says nothing the frozen plan does not: its relation is a frozen identity of a
      frozen binding, its two ends are literal mentions of one kind, and each of its quotes, of
      which there is at least one, is frozen proof, literal in an original; every clock checked is
      at or before the cutoff. The ends differ exactly when the frozen binding's do. */
  lemma ProvenMeans(g: Group, cache: Cache, log: seq<Inspection>, site: Site) returns (b: Binding)
    requires Proven(g, cache, site) && AllComplete(cache, log, site.plan) && ProofsNamed(site.plan)
    ensures b in site.plan.bindings && g.bindingId == b.id && g.left == b.left && g.right == b.right
    ensures Frozen(g.relation, site) && g.relation.rel.SameEntityAs? && {g.relation.origin, g.relation.target} == {b.left, b.right}
    ensures LiteralMention(g.left, site) && LiteralMention(g.right, site)
    ensures g.left in cache && g.right in cache && SameKind(cache[g.left].object_.metadata, cache[g.right].object_.metadata)
    ensures |g.quotes| >= 1 && forall q :: q in g.quotes ==> LiteralQuote(q, site)
    ensures g.left != g.right <==> b.left != b.right
    ensures (forall frozen :: frozen in site.plan.bindings ==> frozen.left != frozen.right) ==> g.left != g.right
  {
    var b', ref :| Justifies(b', ref, g, cache, site);
    b := b';
    RelationOkIsFrozen(g.relation, site);
    MentionIsLiteral(b.left, cache, log, site);
    MentionIsLiteral(b.right, cache, log, site);
    var returned := ReturnedFor(b, cache);
    forall q | q in g.quotes
      ensures LiteralQuote(q, site)
    {
      var k :| 0 <= k < |g.quotes| && g.quotes[k] == q;
      assert QuoteProven(b.evidenceIds[k], returned, cache, site);
      CachedMatches(cache, log, q.source, site.plan);
    }
  }

  // A source link is looked for by its target alone: one frozen plan with a mention whose only link
  // starts at another.

  const BORROWED_LINK: Link := Link("a:n", "a:s", DerivedFrom, "", "", "", "", "", Some("t"), "")

  const BORROWED_ORIGINAL: Node := Node("a:s", "ann", map[FormationRecord := "original_source"], "")

  const BORROWING_MENTION: Node :=
    Node("a:m", "ann", map[EntityRecord := "mention", SourceRefKey := "a:s", SourceStart := "0", SourceEnd := "3"], "")

  const BORROWED_LOG: seq<Inspection> := [
    Inspection("a:s", None, Page(BORROWED_ORIGINAL, [], [Link("a", "a:s", ContainsEntry, "", "", "", "", "", Some("t"), "")], [], false, None)),
    Inspection("a:m", None, Page(BORROWING_MENTION, [], [], [BORROWED_LINK], false, None))]

  function BorrowedSite(): Site {
    Site(FrozenPlan("a", map["a:s" := FrozenEntry("ann", BORROWED_ORIGINAL.metadata, "t"),
                             "a:m" := FrozenEntry("ann", BORROWING_MENTION.metadata, "t")], map[], [BORROWED_LINK], []),
         0, (clock: string) => Some(0), (digits: string) => if digits == "0" then Some(0) else Some(3))
  }

  function BorrowedCache(): Cache {
    map["a:s" := Merged(BORROWED_ORIGINAL, map[], BORROWED_LOG[0].page.incoming, []),
        "a:m" := Merged(BORROWING_MENTION, map[], [], [BORROWED_LINK])]
  }

  lemma AddsOne(link: Link)
    ensures AddLinks([], [link]) == [link]
  {
    assert [link][..0] == [];
  }

  lemma OnePage(inspection: Inspection)
    requires inspection.page.evidence == [] && |inspection.page.incoming| <= 1 && |inspection.page.outgoing| <= 1
    ensures MergePages([inspection])
         == Merged(inspection.page.object_, map[], inspection.page.incoming, inspection.page.outgoing)
  {
    if |inspection.page.incoming| == 1 { AddsOne(inspection.page.incoming[0]); }
    if |inspection.page.outgoing| == 1 { AddsOne(inspection.page.outgoing[0]); }
  }

  lemma OnePageWhole(log: seq<Inspection>, k: nat, plan: FrozenPlan)
    requires k < |log| && log[k].ref in plan.entries && log[k].cursor == None && !log[k].page.hasMore
    requires Matches(log[k].page.object_, log[k].ref, plan.entries[log[k].ref])
    ensures Complete(log, log[k].ref, MergePages([log[k]]), plan)
  {
    assert log[k..k + 1] == [log[k]];
    assert Whole(log, k, k + 1, log[k].ref, MergePages([log[k]]), plan);
  }

  lemma BorrowedComplete()
    ensures AllComplete(BorrowedCache(), BORROWED_LOG, BorrowedSite().plan)
  {
    var plan := BorrowedSite().plan;
    OnePage(BORROWED_LOG[0]);
    OnePage(BORROWED_LOG[1]);
    OnePageWhole(BORROWED_LOG, 0, plan);
    OnePageWhole(BORROWED_LOG, 1, plan);
  }

  lemma BorrowedSource()
    ensures SourceProven("a:s", BorrowedCache(), BorrowedSite())
  {
    assert BORROWED_LOG[0].page.incoming[0].occurredAt == Some("t");
  }

  lemma BorrowedLinked()
    ensures Linked([BORROWED_LINK], "a:s", BorrowedSite())
  {
    assert FindRelation([BORROWED_LINK], "a:n", "a:s", DerivedFrom) == Some(BORROWED_LINK);
    assert [BORROWED_LINK][0] == BORROWED_LINK && LinkedBy(BORROWED_LINK, "a:s", BorrowedSite());
  }

  /** A mention read to its end can be borne out by a link that starts at another mention. */
  lemma LinkMayStartElsewhere()
    ensures AllComplete(BorrowedCache(), BORROWED_LOG, BorrowedSite().plan) && MentionProven("a:m", BorrowedCache(), BorrowedSite())
    ensures BorrowedCache()["a:m"].outgoing == [BORROWED_LINK] && BORROWED_LINK.origin != "a:m"
  {
    BorrowedComplete();
    BorrowedSource();
    BorrowedLinked();
  }

  /** The same kind, once frozen, is the kind returned. */
  lemma KindIsFrozen(ref: string, cache: Cache, log: seq<Inspection>, plan: FrozenPlan)
    requires AllComplete(cache, log, plan) && ref in cache && ref in plan.entries && EntityKind in plan.entries[ref].metadata
    ensures EntityKind in cache[ref].object_.metadata
    ensures cache[ref].object_.metadata[EntityKind] == plan.entries[ref].metadata[EntityKind]
  {
    CachedMatches(cache, log, ref, plan);
  }

  predicate OriginLe(a: Link, b: Link) {
    TextLe(a.origin, b.origin)
  }

  ghost predicate ClocksParse(site: Site) {
    forall r :: r in site.plan.relations && r.occurredAt.Some? ==> site.timestamp(r.occurredAt.value).Some?
  }

  predicate AllReturned(ids: seq<string>, returned: map<string, Quote>) {
    forall k :: 0 <= k < |ids| ==> ids[k] in returned
  }

  lemma RelationNeverRaises(link: Link, site: Site)
    requires ClocksParse(site)
    ensures RelationOk(link, site).Ok?
  {
    var found := FindRelation(site.plan.relations, link.origin, link.target, link.rel);
    if found.Some? { assert found.value in site.plan.relations; }
  }

  /** `any(… relation_ok(r) …)`: a clock that does not parse raises before a later link is looked at. */
  method AnyLinked(links: seq<Link>, target: string, site: Site) returns (r: Result<bool, Refusal>)
    ensures r.Ok? ==> r.value == Linked(links, target, site)
    ensures r.Err? ==> !ClocksParse(site)
  {
    for i := 0 to |links|
      invariant forall k :: 0 <= k < i ==> !LinkedBy(links[k], target, site)
    {
      if links[i].target == target && links[i].rel.DerivedFrom? {
        var ok := RelationOk(links[i], site);
        if ok.Err? {
          if ClocksParse(site) { RelationNeverRaises(links[i], site); }
          return Err(ValueError);
        }
        if ok.value {
          assert LinkedBy(links[i], target, site);
          return Ok(true);
        }
      }
    }
    return Ok(false);
  }

  method FitsOrigin(m: Merged, origin: Merged, site: Site) returns (ok: bool)
    requires IsMention(m.object_.metadata) && SourceRefKey in m.object_.metadata
    ensures ok ==> MentionFits(m, origin, site)
    ensures !ok && ClocksParse(site) ==> !MentionFits(m, origin, site)
  {
    var meta := m.object_.metadata;
    var linked := AnyLinked(m.outgoing, meta[SourceRefKey], site);
    if linked.Err? || !linked.value || SourceStart !in meta || SourceEnd !in meta {
      return false;
    }
    var start, end := site.toInt(meta[SourceStart]), site.toInt(meta[SourceEnd]);
    return start.Some? && end.Some? && Interval(origin.object_.text, start.value, end.value, m.object_.text);
  }

  /** The first k quotes are proven, and these are they. */
  predicate Quoted(ids: seq<string>, k: nat, returned: map<string, Quote>, quoted: seq<Quote>, cache: Cache, site: Site) {
    && k <= |ids| && |quoted| == k
    && forall j :: 0 <= j < k ==> QuoteProven(ids[j], returned, cache, site) && quoted[j] == returned[ids[j]]
  }

  lemma ProvenSoFar(ids: seq<string>, n: nat, returned: map<string, Quote>, cache: Cache, more: Cache, site: Site)
    requires n <= |ids| && Extends(cache, more)
    requires forall j :: 0 <= j < n ==> QuoteProven(ids[j], returned, cache, site)
    ensures forall j :: 0 <= j < n ==> QuoteProven(ids[j], returned, more, site)
  {
    assert QuotesProven(ids[..n], returned, cache, site) by {
      assert forall j :: 0 <= j < n ==> ids[..n][j] == ids[j];
    }
    QuotesKeep(ids[..n], returned, cache, more, site);
    forall j | 0 <= j < n
      ensures QuoteProven(ids[j], returned, more, site)
    {
      assert QuoteProven(ids[..n][j], returned, more, site);
    }
  }

  /** One page: it must be the frozen object, agree with the pages before it, and be the last or
      lead on to a page not asked for yet. */
  method Absorb(ghost run: seq<Inspection>, ref: string, entry: FrozenEntry, merged: Option<Merged>, cursor: Option<string>,
                cursors: set<string>, page: Page)
    returns (next: Option<Merged>)
    requires Reading(run, ref, entry, merged, cursor) && Asked(run, cursor, cursors)
    ensures var more := run + [Inspection(ref, cursor, page)];
            next.Some? ==>
              if page.hasMore then
                && page.nextCursor.Some? && Reading(more, ref, entry, next, page.nextCursor)
                && Asked(more, page.nextCursor, cursors + {page.nextCursor.value})
              else Chain(more, ref, entry) && next.value == MergePages(more)
  {
    if !Matches(page.object_, ref, entry) {
      return None;
    }
    next := TakePage(merged, page);
    if next.None? {
      return None;
    }
    ChainSnoc(run, ref, entry, merged, cursor, page);
    if page.hasMore && (page.nextCursor.None? || page.nextCursor.value == "" || page.nextCursor.value in cursors) {
      return None;
    }
    if page.hasMore { ReadsOn(run, ref, entry, cursor, cursors, page, next.value); }
  }

  /** A page with more to come, and a cursor not asked for yet. */
  lemma ReadsOn(run: seq<Inspection>, ref: string, entry: FrozenEntry, cursor: Option<string>, cursors: set<string>, page: Page,
                merged: Merged)
    requires Asked(run, cursor, cursors) && (run != [] ==> cursor.Some?) && (run == [] ==> cursor == None)
    requires page.hasMore && page.nextCursor.Some? && page.nextCursor.value != "" && page.nextCursor.value !in cursors
    requires var more := run + [Inspection(ref, cursor, page)]; Chain(more, ref, entry) && merged == MergePages(more)
    ensures var more := run + [Inspection(ref, cursor, page)];
            && Reading(more, ref, entry, Some(merged), page.nextCursor)
            && Asked(more, page.nextCursor, cursors + {page.nextCursor.value})
  {
    var more := run + [Inspection(ref, cursor, page)];
    assert more[|run|] == Inspection(ref, cursor, page);
    assert forall k :: 0 <= k < |run| ==> more[k] == run[k];
  }

  lemma FetchedComplete(log: seq<Inspection>, run: seq<Inspection>, ref: string, m: Merged, plan: FrozenPlan)
    requires ref in plan.entries && Chain(run, ref, plan.entries[ref]) && !run[|run| - 1].page.hasMore && m == MergePages(run)
    ensures Complete(log + run, ref, m, plan) && Matches(m.object_, ref, plan.entries[ref])
  {
    assert (log + run)[|log|..|log + run|] == run;
    assert Whole(log + run, |log|, |log + run|, ref, m, plan);
    WholeMatches(log + run, |log|, |log + run|, ref, m, plan);
  }

  lemma LogGrows(cache: Cache, log: seq<Inspection>, more: seq<Inspection>, plan: FrozenPlan)
    requires log <= more && AllComplete(cache, log, plan)
    ensures AllComplete(cache, more, plan)
  {
    forall ref | ref in cache
      ensures Complete(more, ref, cache[ref], plan)
    {
      assert Complete(log, ref, cache[ref], plan);
      var lo, hi :| Whole(log, lo, hi, ref, cache[ref], plan);
      WholeGrows(log, more, lo, hi, ref, cache[ref], plan);
    }
  }

  lemma CacheGrows(groups: seq<Group>, cache: Cache, more: Cache, site: Site)
    requires Extends(cache, more) && AllProven(groups, cache, site)
    ensures AllProven(groups, more, site)
  {
    forall g | g in groups
      ensures Proven(g, more, site)
    {
      assert Proven(g, cache, site);
      GroupKeeps(g, cache, more, site);
    }
  }
}
