/** The writer's input boundary: text, clocks, sources and episodes. */
module Contracts {
  import opened Prelude
  import opened Ordering
  import Text

  /** A reported time: the text as given, and the instant it names when it names one. */
  datatype Clock = Clock(raw: string, instant: Option<int>)

  /** Who spoke; any other word in the field is refused. */
  datatype Role = User | Assistant | System | OtherRole(name: string)

  datatype Source = Source(id: string, role: Role, text: string, observedAt: Clock)

  datatype Episode = Episode(about: string, episodeId: string, sources: seq<Source>)

  datatype Session = Session(about: string, sessionId: string, sources: seq<Source>)

  datatype Policy = Policy(targetChars: nat, maxSources: nat, overlap: bool)

  datatype Citation = Citation(sourceId: string, quote: string, why: string)

  datatype Category = Fact | Preference | Decision | Constraint | Happening | OtherCategory(word: string)

  datatype Memory = Memory(text: string, category: Category, citations: seq<Citation>)

  /** A memory admitted from an extraction, named by the digest of its canonical form. */
  datatype Candidate = Candidate(id: string, memory: Memory)

  datatype Verdict = Verdict(id: string, supported: bool, reason: string)

  datatype Rejected = Invalid(index: nat, memory: Memory) | Unsupported(candidate: Candidate, reason: string)

  /** The values whose canonical JSON is digested. */
  datatype Digested =
    | OfSource(source: Source)
    | OfEpisode(episode: Episode)
    | OfSession(session: Session)
    | OfPolicy(version: string, session: Session, policy: Policy)
    | OfSegment(fingerprint: string, index: nat)
    | OfSourceRef(hash: string, sourceId: string)
    | OfMemory(memory: Memory)
    | OfMemoryRef(hash: string, version: string, revision: string, memoryId: string)
    | OfWriting(hash: string, version: string, revision: string)
    | OfFormed(hash: string, policy: Policy, version: string, revisions: seq<string>)

  ghost predicate SixtyFourDigits(digest: Digested -> string) {
    forall x :: |digest(x)| == 64
  }

  /** No two of these values share a digest, nor the first thirty-two digits of one: what using
      digests as names relies on, and all a digest of bounded length can be asked. */
  ghost predicate TellsApart(digest: Digested -> string, told: set<Digested>) {
    && SixtyFourDigits(digest)
    && forall x, y :: x in told && y in told && digest(x)[..32] == digest(y)[..32] ==> x == y
  }

  const TEXT_LIMIT: nat := 24000

  /** `not text.strip()`. */
  predicate Blank(text: string) {
    text == "" || (Text.IsSpace(text[0]) && Blank(text[1..]))
  }

  /** `any(c.isspace() for c in text)`. */
  predicate HasSpace(text: string) {
    text != "" && (Text.IsSpace(text[0]) || HasSpace(text[1..]))
  }

  /** `string(value, name, limit)` accepts it. */
  predicate Accepted(value: string, limit: nat) {
    !Blank(value) && |value| <= limit
  }

  predicate AboutOk(about: string) {
    Accepted(about, 256) && !HasSpace(about) && about[|about| - 1] != ':'
  }

  /** `timestamp(value)`: short text that names an instant, so one with a timezone. */
  predicate ClockOk(clock: Clock) {
    Accepted(clock.raw, 64) && clock.instant.Some?
  }

  predicate SourceOk(source: Source) {
    && Accepted(source.id, 256) && !source.role.OtherRole?
    && Accepted(source.text, TEXT_LIMIT) && ClockOk(source.observedAt)
  }

  /** The characters of a stretch of turns. */
  function Size(sources: seq<Source>): nat {
    if sources == [] then 0 else Size(sources[..|sources| - 1]) + |sources[|sources| - 1].text|
  }

  predicate Distinct(sources: seq<Source>) {
    forall i, j :: 0 <= i < j < |sources| ==> sources[i].id != sources[j].id
  }

  /** What `episode(value)` accepts. */
  predicate EpisodeOk(e: Episode) {
    && AboutOk(e.about) && Accepted(e.episodeId, 256)
    && 1 <= |e.sources| <= 128
    && (forall i :: 0 <= i < |e.sources| ==> SourceOk(e.sources[i]))
    && Distinct(e.sources) && Size(e.sources) <= TEXT_LIMIT
  }

  /** `episode(value)`: every source in turn, then the sum. */
  method CheckEpisode(e: Episode) returns (ok: bool)
    ensures ok <==> EpisodeOk(e)
  {
    if !AboutOk(e.about) || !Accepted(e.episodeId, 256) || !(1 <= |e.sources| <= 128) {
      return false;
    }
    var seen: set<string>, size, i := {}, 0, 0;
    while i < |e.sources|
      invariant 0 <= i <= |e.sources|
      invariant forall k :: 0 <= k < i ==> SourceOk(e.sources[k])
      invariant forall id :: id in seen <==> exists k :: 0 <= k < i && e.sources[k].id == id
      invariant forall j, k :: 0 <= j < k < i ==> e.sources[j].id != e.sources[k].id
      invariant size == Size(e.sources[..i])
    {
      var source := e.sources[i];
      if !Accepted(source.id, 256) || source.id in seen || source.role.OtherRole?
         || !Accepted(source.text, TEXT_LIMIT) || !ClockOk(source.observedAt)
      {
        return false;
      }
      seen, size := seen + {source.id}, size + |source.text|;
      assert e.sources[..i + 1][..i] == e.sources[..i];
      i := i + 1;
    }
    assert e.sources[..i] == e.sources;
    ok := size <= TEXT_LIMIT;
  }

  lemma {:induction false} SizeAppend(left: seq<Source>, right: seq<Source>)
    ensures Size(left + right) == Size(left) + Size(right)
    decreases |right|
  {
    if right == [] {
      assert left + right == left;
    } else {
      assert (left + right)[..|left + right| - 1] == left + right[..|right| - 1];
      SizeAppend(left, right[..|right| - 1]);
    }
  }

  lemma SizeSingle(source: Source)
    ensures Size([source]) == |source.text|
  {
    assert [source][..0] == [];
  }

  // ---- candidates: literal, distinct, canonical ----

  /** `quote in text`. */
  predicate Within(quote: string, text: string) {
    quote <= text || (text != "" && Within(quote, text[1..]))
  }

  lemma {:induction false} WithinIsLiteral(quote: string, text: string) returns (start: nat)
    requires Within(quote, text)
    ensures start + |quote| <= |text| && text[start..start + |quote|] == quote
  {
    if quote <= text {
      start := 0;
    } else {
      var rest := WithinIsLiteral(quote, text[1..]);
      start := rest + 1;
      assert text[start..start + |quote|] == text[1..][rest..rest + |quote|];
    }
  }

  lemma {:induction false} LiteralIsWithin(quote: string, text: string, start: nat)
    requires start + |quote| <= |text| && text[start..start + |quote|] == quote
    ensures Within(quote, text)
    decreases start
  {
    if start == 0 {
      assert text[..|quote|] == quote;
    } else {
      assert text[1..][start - 1..start - 1 + |quote|] == text[start..start + |quote|];
      LiteralIsWithin(quote, text[1..], start - 1);
    }
  }

  /** `{s['id']: s for s in sources}.get(id)`. */
  function Lookup(sources: seq<Source>, id: string): (r: Option<Source>)
    ensures r.Some? ==> r.value in sources && r.value.id == id
    ensures r.None? ==> forall s :: s in sources ==> s.id != id
  {
    if sources == [] then None
    else
      var init, last := sources[..|sources| - 1], sources[|sources| - 1];
      assert sources == init + [last];
      if last.id == id then Some(last) else Lookup(init, id)
  }

  /** A literal quote of a source, with a note no longer than the writer at hand allows. */
  predicate QuoteOk(c: Citation, sources: seq<Source>, noteLimit: nat) {
    && Accepted(c.sourceId, 256) && Accepted(c.quote, TEXT_LIMIT) && Accepted(c.why, noteLimit)
    && Lookup(sources, c.sourceId).Some? && Within(c.quote, Lookup(sources, c.sourceId).value.text)
  }

  const NOTE_LIMIT: nat := 1200

  predicate CitationOk(c: Citation, sources: seq<Source>) {
    QuoteOk(c, sources, NOTE_LIMIT)
  }

  function CitationKey(c: Citation): (string, string) { (c.sourceId, c.quote) }

  function CitationKeys(citations: seq<Citation>): set<(string, string)> {
    set c | c in citations :: CitationKey(c)
  }

  /** Every citation is a literal span of a source, and none is given twice. */
  predicate CitationsOk(citations: seq<Citation>, sources: seq<Source>, noteLimit: nat) {
    && (forall i :: 0 <= i < |citations| ==> QuoteOk(citations[i], sources, noteLimit))
    && (forall i, j :: 0 <= i < j < |citations| ==> CitationKey(citations[i]) != CitationKey(citations[j]))
  }

  predicate MemoryOk(m: Memory, sources: seq<Source>) {
    && Accepted(m.text, 1600) && !m.category.OtherCategory?
    && 1 <= |m.citations| <= 8 && CitationsOk(m.citations, sources, NOTE_LIMIT)
  }

  predicate CitationLe(a: Citation, b: Citation) {
    if a.sourceId == b.sourceId then TextLe(a.quote, b.quote) else TextLe(a.sourceId, b.sourceId)
  }

  lemma CitationRanks()
    ensures Ranks(CitationLe)
  {
    TextOrders();
  }

  function Canonical(m: Memory): Memory {
    m.(citations := Sort(m.citations, CitationLe))
  }

  function Fingerprint(m: Memory, digest: Digested -> string): string {
    digest(OfMemory(Canonical(m)))
  }

  function CandidateIds(candidates: seq<Candidate>): set<string> {
    set c | c in candidates :: c.id
  }

  predicate NamesDistinct(candidates: seq<Candidate>) {
    forall i, j :: 0 <= i < j < |candidates| ==> candidates[i].id != candidates[j].id
  }

  function Admitted(memories: seq<Memory>, sources: seq<Source>, digest: Digested -> string): seq<Candidate> {
    if memories == [] then []
    else
      var init, last := Admitted(memories[..|memories| - 1], sources, digest), memories[|memories| - 1];
      if MemoryOk(last, sources) && Fingerprint(last, digest) !in CandidateIds(init)
      then init + [Candidate(Fingerprint(last, digest), Canonical(last))]
      else init
  }

  function InvalidOnes(memories: seq<Memory>, sources: seq<Source>, digest: Digested -> string): seq<Rejected> {
    if memories == [] then []
    else
      var n := |memories| - 1;
      var init, last := InvalidOnes(memories[..n], sources, digest), memories[n];
      if MemoryOk(last, sources) && Fingerprint(last, digest) !in CandidateIds(Admitted(memories[..n], sources, digest))
      then init
      else init + [Invalid(n, last)]
  }

  lemma CitationsSnoc(init: seq<Citation>, c: Citation, sources: seq<Source>, noteLimit: nat)
    ensures CitationKeys(init + [c]) == CitationKeys(init) + {CitationKey(c)}
    ensures CitationsOk(init + [c], sources, noteLimit) <==>
              CitationsOk(init, sources, noteLimit) && QuoteOk(c, sources, noteLimit) && CitationKey(c) !in CitationKeys(init)
  {
    var all := init + [c];
    assert all[|init|] == c && forall i :: 0 <= i < |init| ==> all[i] == init[i];
  }

  lemma CitationsRefused(citations: seq<Citation>, sources: seq<Source>, noteLimit: nat, n: nat)
    requires n <= |citations| && !CitationsOk(citations[..n], sources, noteLimit)
    ensures !CitationsOk(citations, sources, noteLimit)
  {
    assert forall i :: 0 <= i < n ==> citations[..n][i] == citations[i];
  }

  method CheckCitations(citations: seq<Citation>, sources: seq<Source>, noteLimit: nat) returns (ok: bool)
    ensures ok <==> CitationsOk(citations, sources, noteLimit)
  {
    var keys: set<(string, string)>, i := {}, 0;
    while i < |citations|
      invariant 0 <= i <= |citations|
      invariant CitationsOk(citations[..i], sources, noteLimit) && keys == CitationKeys(citations[..i])
    {
      var c := citations[i];
      TakeSnoc(citations, i);
      CitationsSnoc(citations[..i], c, sources, noteLimit);
      if !QuoteOk(c, sources, noteLimit) || CitationKey(c) in keys {
        CitationsRefused(citations, sources, noteLimit, i + 1);
        return false;
      }
      keys, i := keys + {CitationKey(c)}, i + 1;
    }
    TakeAll(citations);
    ok := true;
  }

  /** The order the citations of an acceptable memory came in does not reach its canonical form. */
  lemma CanonicalForgetsOrder(m: Memory, citations: seq<Citation>, sources: seq<Source>)
    requires MemoryOk(m, sources) && multiset(citations) == multiset(m.citations)
    ensures Canonical(m.(citations := citations)) == Canonical(m)
  {
    CitationRanks();
    forall x, y | x in m.citations && y in m.citations && CitationLe(x, y) && CitationLe(y, x)
      ensures x == y
    {
      TextOrders();
      var i :| 0 <= i < |m.citations| && m.citations[i] == x;
      var j :| 0 <= j < |m.citations| && m.citations[j] == y;
    }
    SortPermutes(m.citations, citations, CitationLe);
  }

  function CandidateOf(m: Memory, digest: Digested -> string): Candidate {
    Candidate(Fingerprint(m, digest), Canonical(m))
  }

  lemma AdmittedSnoc(init: seq<Memory>, last: Memory, sources: seq<Source>, digest: Digested -> string)
    ensures var before, taken := Admitted(init, sources, digest), Fingerprint(last, digest) in CandidateIds(Admitted(init, sources, digest));
            && Admitted(init + [last], sources, digest)
                 == (if MemoryOk(last, sources) && !taken then before + [CandidateOf(last, digest)] else before)
            && InvalidOnes(init + [last], sources, digest)
                 == InvalidOnes(init, sources, digest) + (if MemoryOk(last, sources) && !taken then [] else [Invalid(|init|, last)])
  {
    assert (init + [last])[..|init|] == init;
  }

  lemma IdsSnoc(init: seq<Candidate>, last: Candidate)
    ensures CandidateIds(init + [last]) == CandidateIds(init) + {last.id}
  {
  }

  /** What was decided of these memories, and the fingerprints taken. */
  ghost predicate Decided(done: seq<Memory>, sources: seq<Source>, digest: Digested -> string,
                          admitted: seq<Candidate>, rejected: seq<Rejected>, seen: set<string>)
  {
    && admitted == Admitted(done, sources, digest) && rejected == InvalidOnes(done, sources, digest)
    && seen == CandidateIds(admitted)
  }

  lemma DecideOne(done: seq<Memory>, m: Memory, sources: seq<Source>, digest: Digested -> string,
                  admitted: seq<Candidate>, rejected: seq<Rejected>, seen: set<string>)
    requires Decided(done, sources, digest, admitted, rejected, seen)
    ensures var id := Fingerprint(m, digest);
            if MemoryOk(m, sources) && id !in seen then
              Decided(done + [m], sources, digest, admitted + [CandidateOf(m, digest)], rejected, seen + {id})
            else Decided(done + [m], sources, digest, admitted, rejected + [Invalid(|done|, m)], seen)
  {
    AdmittedSnoc(done, m, sources, digest);
    IdsSnoc(admitted, CandidateOf(m, digest));
  }

  lemma NoneDecided(sources: seq<Source>, digest: Digested -> string)
    ensures Decided([], sources, digest, [], [], {})
  {
  }

  /** `candidates`: each memory is admitted or listed as rejected with its index. */
  method Candidates(memories: seq<Memory>, e: Episode, digest: Digested -> string)
    returns (r: Option<(seq<Candidate>, seq<Rejected>)>)
    ensures r.Some? <==> |memories| <= 24 && EpisodeOk(e)
    ensures r.Some? ==> r.value.0 == Admitted(memories, e.sources, digest) && r.value.1 == InvalidOnes(memories, e.sources, digest)
  {
    if |memories| > 24 {
      return None;
    }
    var known := CheckEpisode(e);
    if !known {
      return None;
    }
    var sources := e.sources;
    var admitted: seq<Candidate>, rejected: seq<Rejected>, seen: set<string>, i := [], [], {}, 0;
    NoneDecided(sources, digest);
    while i < |memories|
      invariant 0 <= i <= |memories| && Decided(memories[..i], sources, digest, admitted, rejected, seen)
    {
      var memory := memories[i];
      TakeSnoc(memories, i);
      DecideOne(memories[..i], memory, sources, digest, admitted, rejected, seen);
      var cited := CheckCitations(memory.citations, sources, NOTE_LIMIT);
      var fingerprint := Fingerprint(memory, digest);
      if Accepted(memory.text, 1600) && !memory.category.OtherCategory? && 1 <= |memory.citations| <= 8 && cited
         && fingerprint !in seen
      {
        var candidate := Candidate(fingerprint, Canonical(memory));
        admitted, seen := admitted + [candidate], seen + {fingerprint};
      } else {
        rejected := rejected + [Invalid(i, memory)];
      }
      i := i + 1;
    }
    TakeAll(memories);
    return Some((admitted, rejected));
  }

  /** What a candidate is: the canonical form of an acceptable memory, named by its own digest. */
  ghost predicate Justified(c: Candidate, memories: seq<Memory>, sources: seq<Source>, digest: Digested -> string) {
    c.id == digest(OfMemory(c.memory)) && exists m :: m in memories && MemoryOk(m, sources) && c.memory == Canonical(m)
  }

  lemma JustifiedMore(c: Candidate, init: seq<Memory>, last: Memory, sources: seq<Source>, digest: Digested -> string)
    requires Justified(c, init, sources, digest)
    ensures Justified(c, init + [last], sources, digest)
  {
    var m :| m in init && MemoryOk(m, sources) && c.memory == Canonical(m);
    assert m in init + [last];
  }

  /** Everything admitted is justified, nothing is admitted twice. */
  lemma {:induction false} AdmittedJustified(memories: seq<Memory>, sources: seq<Source>, digest: Digested -> string)
    ensures forall c :: c in Admitted(memories, sources, digest) ==> Justified(c, memories, sources, digest)
    ensures NamesDistinct(Admitted(memories, sources, digest))
    decreases |memories|
  {
    if memories == [] {
    } else {
      var init, last := memories[..|memories| - 1], memories[|memories| - 1];
      assert memories == init + [last];
      AdmittedJustified(init, sources, digest);
      forall c | c in Admitted(memories, sources, digest)
        ensures Justified(c, memories, sources, digest)
      {
        if c in Admitted(init, sources, digest) {
          JustifiedMore(c, init, last, sources, digest);
        } else {
          assert last in memories;
        }
      }
    }
  }

  /** The memory at `i` is admitted: it is acceptable, and no acceptable memory before it has its
      fingerprint. */
  predicate Keeps(memories: seq<Memory>, i: nat, sources: seq<Source>, digest: Digested -> string)
    requires i < |memories|
  {
    && MemoryOk(memories[i], sources)
    && forall j :: 0 <= j < i && MemoryOk(memories[j], sources) ==> Fingerprint(memories[j], digest) != Fingerprint(memories[i], digest)
  }

  predicate RisingBelow(indices: seq<nat>, n: nat) {
    && (forall k :: 0 <= k < |indices| ==> indices[k] < n)
    && forall k, l :: 0 <= k < l < |indices| ==> indices[k] < indices[l]
  }

  /** Where the admitted and the rejected memories stood. */
  ghost predicate Splits(memories: seq<Memory>, sources: seq<Source>, digest: Digested -> string, kept: seq<nat>, dropped: seq<nat>) {
    && RisingBelow(kept, |memories|) && RisingBelow(dropped, |memories|) && |kept| + |dropped| == |memories|
    && (forall k :: 0 <= k < |kept| ==> Keeps(memories, kept[k], sources, digest))
    && (forall k :: 0 <= k < |dropped| ==> !Keeps(memories, dropped[k], sources, digest))
  }

  ghost predicate AdmittedAt(admitted: seq<Candidate>, memories: seq<Memory>, kept: seq<nat>, digest: Digested -> string)
    requires RisingBelow(kept, |memories|)
  {
    && |admitted| == |kept|
    && forall k :: 0 <= k < |kept| ==> admitted[k] == CandidateOf(memories[kept[k]], digest)
  }

  ghost predicate RejectedAt(rejected: seq<Rejected>, memories: seq<Memory>, dropped: seq<nat>)
    requires RisingBelow(dropped, |memories|)
  {
    && |rejected| == |dropped|
    && forall k :: 0 <= k < |dropped| ==> rejected[k] == Invalid(dropped[k], memories[dropped[k]])
  }

  /** Some acceptable memory has this fingerprint. */
  predicate Met(memories: seq<Memory>, sources: seq<Source>, digest: Digested -> string, id: string) {
    exists m :: m in memories && MemoryOk(m, sources) && Fingerprint(m, digest) == id
  }

  lemma MetSnoc(init: seq<Memory>, last: Memory, sources: seq<Source>, digest: Digested -> string, id: string)
    ensures Met(init + [last], sources, digest, id) <==>
              Met(init, sources, digest, id) || (MemoryOk(last, sources) && Fingerprint(last, digest) == id)
  {
    var all := init + [last];
    if Met(init, sources, digest, id) {
      var m :| m in init && MemoryOk(m, sources) && Fingerprint(m, digest) == id;
      assert m in all;
    }
    assert last in all;
  }

  /** A fingerprint is taken exactly when an acceptable memory has it. */
  lemma {:induction false} TakenIff(memories: seq<Memory>, sources: seq<Source>, digest: Digested -> string, id: string)
    ensures id in CandidateIds(Admitted(memories, sources, digest)) <==> Met(memories, sources, digest, id)
    decreases |memories|
  {
    if memories == [] {
    } else {
      var init, last := memories[..|memories| - 1], memories[|memories| - 1];
      assert memories == init + [last];
      TakenIff(init, sources, digest, id);
      MetSnoc(init, last, sources, digest, id);
      AdmittedSnoc(init, last, sources, digest);
      IdsSnoc(Admitted(init, sources, digest), CandidateOf(last, digest));
    }
  }

  lemma SplitsMore(init: seq<Memory>, last: Memory, sources: seq<Source>, digest: Digested -> string, kept: seq<nat>, dropped: seq<nat>)
    requires Splits(init, sources, digest, kept, dropped)
    ensures var all, n := init + [last], |init|;
            if Keeps(all, n, sources, digest) then Splits(all, sources, digest, kept + [n], dropped)
            else Splits(all, sources, digest, kept, dropped + [n])
  {
    var all := init + [last];
    forall i | 0 <= i < |init|
      ensures Keeps(all, i, sources, digest) <==> Keeps(init, i, sources, digest)
    {
      assert all[i] == init[i] && forall j :: 0 <= j < i ==> all[j] == init[j];
    }
  }

  lemma KeepsLast(init: seq<Memory>, last: Memory, sources: seq<Source>, digest: Digested -> string)
    ensures Keeps(init + [last], |init|, sources, digest) <==>
              MemoryOk(last, sources) && Fingerprint(last, digest) !in CandidateIds(Admitted(init, sources, digest))
  {
    var all, id := init + [last], Fingerprint(last, digest);
    assert all[|init|] == last && forall j :: 0 <= j < |init| ==> all[j] == init[j];
    TakenIff(init, sources, digest, id);
    if Met(init, sources, digest, id) {
      var m :| m in init && MemoryOk(m, sources) && Fingerprint(m, digest) == id;
      var j :| 0 <= j < |init| && init[j] == m;
      assert all[j] == m;
    }
  }

  /** The admitted and the rejected lists, read off where the memories stood. */
  ghost predicate Parted(memories: seq<Memory>, sources: seq<Source>, digest: Digested -> string, kept: seq<nat>, dropped: seq<nat>) {
    && Splits(memories, sources, digest, kept, dropped)
    && AdmittedAt(Admitted(memories, sources, digest), memories, kept, digest)
    && RejectedAt(InvalidOnes(memories, sources, digest), memories, dropped)
  }

  lemma AdmittedAtMore(admitted: seq<Candidate>, init: seq<Memory>, last: Memory, kept: seq<nat>, digest: Digested -> string)
    requires RisingBelow(kept, |init|) && AdmittedAt(admitted, init, kept, digest)
    ensures RisingBelow(kept, |init + [last]|) && AdmittedAt(admitted, init + [last], kept, digest)
    ensures RisingBelow(kept + [|init|], |init + [last]|)
            && AdmittedAt(admitted + [CandidateOf(last, digest)], init + [last], kept + [|init|], digest)
  {
    assert forall i :: 0 <= i < |init| ==> (init + [last])[i] == init[i];
  }

  lemma RejectedAtMore(rejected: seq<Rejected>, init: seq<Memory>, last: Memory, dropped: seq<nat>)
    requires RisingBelow(dropped, |init|) && RejectedAt(rejected, init, dropped)
    ensures RisingBelow(dropped, |init + [last]|) && RejectedAt(rejected, init + [last], dropped)
    ensures RisingBelow(dropped + [|init|], |init + [last]|)
            && RejectedAt(rejected + [Invalid(|init|, last)], init + [last], dropped + [|init|])
  {
    assert forall i :: 0 <= i < |init| ==> (init + [last])[i] == init[i];
  }

  lemma PartedMore(init: seq<Memory>, last: Memory, sources: seq<Source>, digest: Digested -> string, kept: seq<nat>, dropped: seq<nat>)
    returns (kept': seq<nat>, dropped': seq<nat>)
    requires Parted(init, sources, digest, kept, dropped)
    ensures Parted(init + [last], sources, digest, kept', dropped')
  {
    kept', dropped' := kept, dropped;
    var admitted, rejected := Admitted(init, sources, digest), InvalidOnes(init, sources, digest);
    KeepsLast(init, last, sources, digest);
    SplitsMore(init, last, sources, digest, kept, dropped);
    AdmittedSnoc(init, last, sources, digest);
    AdmittedAtMore(admitted, init, last, kept, digest);
    RejectedAtMore(rejected, init, last, dropped);
    if Keeps(init + [last], |init|, sources, digest) {
      kept' := kept + [|init|];
    } else {
      dropped' := dropped + [|init|];
    }
  }

  /** Every memory is admitted or rejected, never both: the admitted ones are the acceptable ones
      that repeat no earlier acceptable one, in the order given; the others are listed with the
      index they stood at. */
  lemma {:induction false} CandidatesSplit(memories: seq<Memory>, sources: seq<Source>, digest: Digested -> string)
    returns (kept: seq<nat>, dropped: seq<nat>)
    ensures Parted(memories, sources, digest, kept, dropped)
    decreases |memories|
  {
    if memories == [] {
      kept, dropped := [], [];
    } else {
      var init, last := memories[..|memories| - 1], memories[|memories| - 1];
      kept, dropped := CandidatesSplit(init, sources, digest);
      kept, dropped := PartedMore(init, last, sources, digest, kept, dropped);
      assert memories == init + [last];
    }
  }

  /** No two of these memories have the same fingerprint without the same canonical form. */
  ghost predicate FingerprintsTell(memories: seq<Memory>, digest: Digested -> string) {
    forall x, y :: x in memories && y in memories && Fingerprint(x, digest) == Fingerprint(y, digest) ==> Canonical(x) == Canonical(y)
  }

  /** Every acceptable memory is admitted: only a memory with the same canonical form displaces it. */
  lemma AcceptableAdmitted(memories: seq<Memory>, sources: seq<Source>, digest: Digested -> string, m: Memory)
    requires FingerprintsTell(memories, digest) && m in memories && MemoryOk(m, sources)
    ensures CandidateOf(m, digest) in Admitted(memories, sources, digest)
  {
    var admitted := Admitted(memories, sources, digest);
    TakenIff(memories, sources, digest, Fingerprint(m, digest));
    var c :| c in admitted && c.id == Fingerprint(m, digest);
    AdmittedJustified(memories, sources, digest);
    assert Justified(c, memories, sources, digest);
    var x :| x in memories && MemoryOk(x, sources) && c.memory == Canonical(x);
  }

  lemma DigestTells(digest: Digested -> string, told: set<Digested>, x: Digested, y: Digested)
    requires TellsApart(digest, told) && x in told && y in told && digest(x) == digest(y)
    ensures x == y
  {
    assert digest(x)[..32] == digest(y)[..32];
  }

  // ---- verdicts: one for every candidate ----

  function VerdictIds(rows: seq<Verdict>): set<string> {
    set row | row in rows :: row.id
  }

  predicate RowAccepted(row: Verdict, proposed: seq<Candidate>) {
    Accepted(row.id, 64) && Accepted(row.reason, 1600) && row.id in CandidateIds(proposed)
  }

  predicate RowsDistinct(rows: seq<Verdict>) {
    forall i, j :: 0 <= i < j < |rows| ==> rows[i].id != rows[j].id
  }

  predicate RowsAccepted(rows: seq<Verdict>, proposed: seq<Candidate>) {
    (forall i :: 0 <= i < |rows| ==> RowAccepted(rows[i], proposed)) && RowsDistinct(rows)
  }

  predicate VerdictsOk(rows: seq<Verdict>, proposed: seq<Candidate>) {
    |rows| == |proposed| && RowsAccepted(rows, proposed)
  }

  /** The candidate of that name; the last one, when a name is taken twice. */
  function Named(proposed: seq<Candidate>, id: string): (c: Candidate)
    requires id in CandidateIds(proposed)
    ensures c in proposed && c.id == id
  {
    var init, last := proposed[..|proposed| - 1], proposed[|proposed| - 1];
    assert proposed == init + [last];
    if last.id == id then last else Named(init, id)
  }

  function SupportedOnes(rows: seq<Verdict>, proposed: seq<Candidate>): seq<Candidate>
    requires RowsAccepted(rows, proposed)
  {
    if rows == [] then []
    else
      var init, last := SupportedOnes(rows[..|rows| - 1], proposed), rows[|rows| - 1];
      if last.supported then init + [Named(proposed, last.id)] else init
  }

  function UnsupportedOnes(rows: seq<Verdict>, proposed: seq<Candidate>): seq<Rejected>
    requires RowsAccepted(rows, proposed)
  {
    if rows == [] then []
    else
      var init, last := UnsupportedOnes(rows[..|rows| - 1], proposed), rows[|rows| - 1];
      if last.supported then init else init + [Unsupported(Named(proposed, last.id), last.reason)]
  }

  predicate CandidateLe(a: Candidate, b: Candidate) {
    TextLe(a.id, b.id)
  }

  function PendingOf(proposed: seq<Candidate>): map<string, Candidate> {
    map id | id in CandidateIds(proposed) :: Named(proposed, id)
  }

  lemma RowsSnoc(init: seq<Verdict>, last: Verdict, proposed: seq<Candidate>)
    ensures VerdictIds(init + [last]) == VerdictIds(init) + {last.id}
    ensures RowsAccepted(init + [last], proposed) <==>
              RowsAccepted(init, proposed) && RowAccepted(last, proposed) && last.id !in VerdictIds(init)
  {
    var all := init + [last];
    assert all[|init|] == last && forall i :: 0 <= i < |init| ==> all[i] == init[i];
  }

  lemma RowsRefused(rows: seq<Verdict>, proposed: seq<Candidate>, n: nat)
    requires n <= |rows| && !RowsAccepted(rows[..n], proposed)
    ensures !RowsAccepted(rows, proposed)
  {
    assert forall i :: 0 <= i < n ==> rows[..n][i] == rows[i];
  }

  lemma JudgedSnoc(init: seq<Verdict>, last: Verdict, proposed: seq<Candidate>)
    requires RowsAccepted(init, proposed) && RowsAccepted(init + [last], proposed)
    ensures last.id in CandidateIds(proposed)
    ensures SupportedOnes(init + [last], proposed)
         == if last.supported then SupportedOnes(init, proposed) + [Named(proposed, last.id)] else SupportedOnes(init, proposed)
    ensures UnsupportedOnes(init + [last], proposed)
         == if last.supported then UnsupportedOnes(init, proposed)
            else UnsupportedOnes(init, proposed) + [Unsupported(Named(proposed, last.id), last.reason)]
  {
    assert (init + [last])[..|init|] == init;
    RowsSnoc(init, last, proposed);
  }

  /** What is left to judge and what was decided, some way through the rows. */
  ghost predicate Judged(rows: seq<Verdict>, proposed: seq<Candidate>, pending: map<string, Candidate>,
                         accepted: seq<Candidate>, rejected: seq<Rejected>)
  {
    && RowsAccepted(rows, proposed)
    && pending.Keys == CandidateIds(proposed) - VerdictIds(rows)
    && (forall id :: id in pending ==> pending[id] == Named(proposed, id))
    && accepted == SupportedOnes(rows, proposed) && rejected == UnsupportedOnes(rows, proposed)
  }

  lemma JudgeOne(done: seq<Verdict>, row: Verdict, proposed: seq<Candidate>, pending: map<string, Candidate>,
                 accepted: seq<Candidate>, rejected: seq<Rejected>)
    requires Judged(done, proposed, pending, accepted, rejected)
    requires Accepted(row.id, 64) && row.id in pending && Accepted(row.reason, 1600)
    ensures Judged(done + [row], proposed, pending - {row.id},
                   if row.supported then accepted + [pending[row.id]] else accepted,
                   if row.supported then rejected else rejected + [Unsupported(pending[row.id], row.reason)])
  {
    RowsSnoc(done, row, proposed);
    JudgedSnoc(done, row, proposed);
  }

  lemma RefuseOne(rows: seq<Verdict>, i: nat, proposed: seq<Candidate>, pending: map<string, Candidate>,
                  accepted: seq<Candidate>, rejected: seq<Rejected>)
    requires i < |rows| && Judged(rows[..i], proposed, pending, accepted, rejected)
    requires !Accepted(rows[i].id, 64) || rows[i].id !in pending || !Accepted(rows[i].reason, 1600)
    ensures !RowsAccepted(rows, proposed)
  {
    TakeSnoc(rows, i);
    RowsSnoc(rows[..i], rows[i], proposed);
    RowsRefused(rows, proposed, i + 1);
  }

  /** `verdicts`: each row takes its candidate out of `pending`, so none is judged twice. */
  method Verdicts(rows: seq<Verdict>, proposed: seq<Candidate>)
    returns (r: Option<(seq<Candidate>, seq<Rejected>)>)
    ensures r.Some? <==> VerdictsOk(rows, proposed)
    ensures r.Some? ==> r.value.0 == Sort(SupportedOnes(rows, proposed), CandidateLe)
                        && r.value.1 == UnsupportedOnes(rows, proposed)
  {
    if |rows| != |proposed| {
      return None;
    }
    var pending := PendingOf(proposed);
    var accepted: seq<Candidate>, rejected: seq<Rejected>, i := [], [], 0;
    while i < |rows|
      invariant 0 <= i <= |rows| && Judged(rows[..i], proposed, pending, accepted, rejected)
    {
      var row := rows[i];
      if !Accepted(row.id, 64) || row.id !in pending || !Accepted(row.reason, 1600) {
        RefuseOne(rows, i, proposed, pending, accepted, rejected);
        return None;
      }
      TakeSnoc(rows, i);
      JudgeOne(rows[..i], row, proposed, pending, accepted, rejected);
      var candidate := pending[row.id];
      pending := pending - {row.id};
      if row.supported {
        accepted := accepted + [candidate];
      } else {
        rejected := rejected + [Unsupported(candidate, row.reason)];
      }
      i := i + 1;
    }
    TakeAll(rows);
    return Some((Sort(accepted, CandidateLe), rejected));
  }

  lemma DistinctSnoc(init: seq<Verdict>, last: Verdict)
    ensures VerdictIds(init + [last]) == VerdictIds(init) + {last.id}
    ensures RowsDistinct(init + [last]) <==> RowsDistinct(init) && last.id !in VerdictIds(init)
  {
    var all := init + [last];
    assert all[|init|] == last && forall i :: 0 <= i < |init| ==> all[i] == init[i];
  }

  /** There are as many names as rows exactly when no name is used twice. */
  lemma {:induction false} JudgedCount(rows: seq<Verdict>)
    ensures |VerdictIds(rows)| <= |rows|
    ensures |VerdictIds(rows)| == |rows| <==> RowsDistinct(rows)
    decreases |rows|
  {
    if rows == [] {
    } else {
      var init, last := rows[..|rows| - 1], rows[|rows| - 1];
      assert rows == init + [last];
      JudgedCount(init);
      DistinctSnoc(init, last);
    }
  }

  lemma NamesSnoc(init: seq<Candidate>, last: Candidate)
    ensures NamesDistinct(init + [last]) <==> NamesDistinct(init) && last.id !in CandidateIds(init)
  {
    var all := init + [last];
    assert all[|init|] == last && forall i :: 0 <= i < |init| ==> all[i] == init[i];
  }

  lemma {:induction false} NamesCount(proposed: seq<Candidate>)
    ensures |CandidateIds(proposed)| <= |proposed|
    ensures |CandidateIds(proposed)| == |proposed| <==> NamesDistinct(proposed)
    decreases |proposed|
  {
    if proposed == [] {
    } else {
      var init, last := proposed[..|proposed| - 1], proposed[|proposed| - 1];
      assert proposed == init + [last];
      NamesCount(init);
      IdsSnoc(init, last);
      NamesSnoc(init, last);
    }
  }

  lemma SubsetAsLarge<T>(small: set<T>, large: set<T>)
    requires small <= large && |small| >= |large|
    ensures small == large
  {
    var rest := large - small;
    assert large == small + rest;
    assert |rest| == 0;
  }

  /** As many rows as candidates, none unknown and none repeated: every candidate is judged, once,
      and no two candidates share a name. */
  lemma VerdictsCover(rows: seq<Verdict>, proposed: seq<Candidate>)
    requires VerdictsOk(rows, proposed)
    ensures VerdictIds(rows) == CandidateIds(proposed) && NamesDistinct(proposed)
  {
    JudgedCount(rows);
    NamesCount(proposed);
    assert VerdictIds(rows) <= CandidateIds(proposed);
    SubsetAsLarge(VerdictIds(rows), CandidateIds(proposed));
  }

  lemma VerdictsPermute(rows: seq<Verdict>, others: seq<Verdict>, proposed: seq<Candidate>)
    requires VerdictsOk(rows, proposed) && multiset(rows) == multiset(others)
    ensures VerdictsOk(others, proposed)
  {
    SameCount(rows, others);
    assert VerdictIds(rows) == VerdictIds(others);
    JudgedCount(rows);
    JudgedCount(others);
    forall i | 0 <= i < |others|
      ensures RowAccepted(others[i], proposed)
    {
      assert others[i] in rows;
    }
  }

  predicate Supports(rows: seq<Verdict>, id: string) {
    exists row :: row in rows && row.supported && row.id == id
  }

  lemma SupportsSnoc(init: seq<Verdict>, last: Verdict, id: string)
    ensures Supports(init + [last], id) <==> Supports(init, id) || (last.supported && last.id == id)
  {
    var rows := init + [last];
    if Supports(init, id) {
      var row :| row in init && row.supported && row.id == id;
      assert row in rows;
    }
    if last.supported && last.id == id { assert last in rows; }
  }

  lemma NamedIsUnique(proposed: seq<Candidate>, c: Candidate)
    requires NamesDistinct(proposed) && c in proposed
    ensures c.id in CandidateIds(proposed) && Named(proposed, c.id) == c
  {
    var d := Named(proposed, c.id);
    var i :| 0 <= i < |proposed| && proposed[i] == c;
    var j :| 0 <= j < |proposed| && proposed[j] == d;
  }

  /** The accepted candidates are exactly those some verdict supports. */
  lemma {:induction false} SupportedIff(rows: seq<Verdict>, proposed: seq<Candidate>)
    requires RowsAccepted(rows, proposed) && NamesDistinct(proposed)
    ensures forall c :: c in SupportedOnes(rows, proposed) <==> c in proposed && Supports(rows, c.id)
    ensures NamesDistinct(SupportedOnes(rows, proposed))
    decreases |rows|
  {
    if rows == [] {
    } else {
      var init, last := rows[..|rows| - 1], rows[|rows| - 1];
      assert rows == init + [last];
      RowsSnoc(init, last, proposed);
      SupportedIff(init, proposed);
      JudgedSnoc(init, last, proposed);
      var before, after := SupportedOnes(init, proposed), SupportedOnes(rows, proposed);
      forall c | c in before
        ensures c.id != last.id
      {
        SupportedNamed(init, proposed, c);
      }
      assert after == if last.supported then before + [Named(proposed, last.id)] else before;
      forall c
        ensures c in after <==> c in proposed && Supports(rows, c.id)
      {
        SupportsSnoc(init, last, c.id);
        if c in proposed && c.id == last.id { NamedIsUnique(proposed, c); }
      }
    }
  }

  lemma SupportedNamed(rows: seq<Verdict>, proposed: seq<Candidate>, c: Candidate)
    requires Supports(rows, c.id)
    ensures c.id in VerdictIds(rows)
  {
  }

  /** Some verdict turns this candidate down, for this reason. */
  predicate Refuses(rows: seq<Verdict>, c: Candidate, reason: string) {
    exists row :: row in rows && !row.supported && row.id == c.id && row.reason == reason
  }

  lemma RefusesSnoc(init: seq<Verdict>, last: Verdict, c: Candidate, reason: string)
    ensures Refuses(init + [last], c, reason) <==>
              Refuses(init, c, reason) || (!last.supported && last.id == c.id && last.reason == reason)
  {
    var rows := init + [last];
    if Refuses(init, c, reason) {
      var row :| row in init && !row.supported && row.id == c.id && row.reason == reason;
      assert row in rows;
    }
    if !last.supported && last.id == c.id && last.reason == reason { assert last in rows; }
  }

  /** The rejected list holds exactly the candidates turned down, each with its own verdict's reason. */
  lemma {:induction false} UnsupportedIff(rows: seq<Verdict>, proposed: seq<Candidate>)
    requires RowsAccepted(rows, proposed) && NamesDistinct(proposed)
    ensures forall u :: u in UnsupportedOnes(rows, proposed) <==>
              u.Unsupported? && u.candidate in proposed && Refuses(rows, u.candidate, u.reason)
    ensures |SupportedOnes(rows, proposed)| + |UnsupportedOnes(rows, proposed)| == |rows|
    decreases |rows|
  {
    if rows == [] {
    } else {
      var init, last := rows[..|rows| - 1], rows[|rows| - 1];
      assert rows == init + [last];
      RowsSnoc(init, last, proposed);
      UnsupportedIff(init, proposed);
      JudgedSnoc(init, last, proposed);
      var named, after := Named(proposed, last.id), UnsupportedOnes(rows, proposed);
      forall u
        ensures u in after <==> u.Unsupported? && u.candidate in proposed && Refuses(rows, u.candidate, u.reason)
      {
        if u.Unsupported? {
          RefusesSnoc(init, last, u.candidate, u.reason);
          if u.candidate in proposed && u.candidate.id == last.id { NamedIsUnique(proposed, u.candidate); }
        }
      }
    }
  }

  /** The two lists part the candidates: one each for every one, the accepted in name order, every
      rejected one with the reason of its own verdict. */
  lemma VerdictsPart(rows: seq<Verdict>, proposed: seq<Candidate>)
    requires VerdictsOk(rows, proposed)
    ensures var accepted, rejected := Sort(SupportedOnes(rows, proposed), CandidateLe), UnsupportedOnes(rows, proposed);
            && Sorted(accepted, CandidateLe) && |accepted| + |rejected| == |proposed|
            && (forall c :: c in accepted <==> c in proposed && Supports(rows, c.id))
            && (forall u :: u in rejected <==> u.Unsupported? && u.candidate in proposed && Refuses(rows, u.candidate, u.reason))
            && (forall c, reason :: c in accepted ==> Unsupported(c, reason) !in rejected)
            && (forall c :: c in proposed ==> c in accepted || exists reason :: Unsupported(c, reason) in rejected)
  {
    VerdictsCover(rows, proposed);
    SupportedIff(rows, proposed);
    UnsupportedIff(rows, proposed);
    TextOrders();
    SortSorts(SupportedOnes(rows, proposed), CandidateLe);
    forall c | c in proposed
      ensures Supports(rows, c.id) <==> !exists reason :: Refuses(rows, c, reason)
    {
      JudgedOnce(rows, proposed, c);
    }
    forall c | c in proposed && !Supports(rows, c.id)
      ensures exists reason :: Unsupported(c, reason) in UnsupportedOnes(rows, proposed)
    {
      var reason :| Refuses(rows, c, reason);
      assert Unsupported(c, reason) in UnsupportedOnes(rows, proposed);
    }
  }

  lemma JudgedOnce(rows: seq<Verdict>, proposed: seq<Candidate>, c: Candidate)
    requires VerdictsOk(rows, proposed) && c in proposed
    ensures Supports(rows, c.id) <==> !exists reason :: Refuses(rows, c, reason)
  {
    VerdictsCover(rows, proposed);
    assert c.id in VerdictIds(rows);
    var i :| 0 <= i < |rows| && rows[i].id == c.id;
    assert rows[i] in rows;
    if !rows[i].supported { assert Refuses(rows, c, rows[i].reason); }
  }

  /** The order the verdicts came in decides nothing: a list is accepted or refused whatever its
      order, and accepts the same candidates. */
  lemma VerdictOrderIrrelevant(rows: seq<Verdict>, others: seq<Verdict>, proposed: seq<Candidate>)
    requires multiset(rows) == multiset(others)
    ensures VerdictsOk(rows, proposed) <==> VerdictsOk(others, proposed)
    ensures VerdictsOk(rows, proposed) ==>
              && Sort(SupportedOnes(rows, proposed), CandidateLe) == Sort(SupportedOnes(others, proposed), CandidateLe)
              && forall u :: u in UnsupportedOnes(rows, proposed) <==> u in UnsupportedOnes(others, proposed)
  {
    if VerdictsOk(others, proposed) { VerdictsPermute(others, rows, proposed); }
    if VerdictsOk(rows, proposed) {
      VerdictsPermute(rows, others, proposed);
      VerdictsCover(rows, proposed);
      SameJudged(rows, others, proposed);
    }
  }

  lemma SameJudged(rows: seq<Verdict>, others: seq<Verdict>, proposed: seq<Candidate>)
    requires VerdictsOk(rows, proposed) && VerdictsOk(others, proposed) && NamesDistinct(proposed)
    requires multiset(rows) == multiset(others)
    ensures Sort(SupportedOnes(rows, proposed), CandidateLe) == Sort(SupportedOnes(others, proposed), CandidateLe)
    ensures forall u :: u in UnsupportedOnes(rows, proposed) <==> u in UnsupportedOnes(others, proposed)
  {
    SupportedIff(rows, proposed);
    SupportedIff(others, proposed);
    UnsupportedIff(rows, proposed);
    UnsupportedIff(others, proposed);
    SameCount(rows, others);
    var left, right := SupportedOnes(rows, proposed), SupportedOnes(others, proposed);
    forall c
      ensures c in left <==> c in right
    {
      assert Supports(rows, c.id) <==> Supports(others, c.id);
    }
    forall c, reason
      ensures Refuses(rows, c, reason) <==> Refuses(others, c, reason)
    {
    }
    SameMembers(left, right);
    TextOrders();
    SortPermutes(left, right, CandidateLe);
  }
}
