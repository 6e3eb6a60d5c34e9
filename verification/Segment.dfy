/** Planning whole-turn episodes from one reporting session: greedy packing with one-turn overlap. */
module Segment {
  import opened Prelude
  import opened Contracts

  const SEGMENT_VERSION: string := "whole-turn-session-v1"

  datatype Row = Row(
    episode: Episode, newSourceIds: seq<string>, contextSourceIds: seq<string>, contextOmitted: Option<string>,
    sourceChars: nat, wholeTurnExceedsTarget: bool)

  datatype Segmented = Segmented(episodes: seq<Row>, excludedBlankSourceIds: seq<string>, policy: Policy)

  /** The turns generation may use, in order. */
  function Usable(sources: seq<Source>): (r: seq<Source>)
    ensures forall s :: s in r <==> s in sources && !Blank(s.text)
  {
    if sources == [] then []
    else
      var init, last := Usable(sources[..|sources| - 1]), sources[|sources| - 1];
      assert sources == sources[..|sources| - 1] + [last];
      if Blank(last.text) then init else init + [last]
  }

  function Ids(sources: seq<Source>): (r: seq<string>)
    ensures |r| == |sources| && forall i :: 0 <= i < |r| ==> r[i] == sources[i].id
  {
    seq(|sources|, i requires 0 <= i < |sources| => sources[i].id)
  }

  /** A source of a session: blank text is allowed there, nothing else the boundary refuses is. */
  predicate TurnOk(source: Source) {
    && Accepted(source.id, 256) && |source.text| <= TEXT_LIMIT
    && !source.role.OtherRole? && ClockOk(source.observedAt)
  }

  predicate OneInstant(sources: seq<Source>) {
    forall i :: 0 <= i < |sources| ==> sources[i].observedAt.instant == sources[0].observedAt.instant
  }

  /** What `segment_session` accepts: one scope, distinct sources, one reporting instant. */
  predicate SessionOk(session: Session, target: nat, maxSources: nat) {
    && AboutOk(session.about) && Accepted(session.sessionId, 256)
    && 1 <= target <= TEXT_LIMIT && 1 <= maxSources <= 128
    && TurnsOk(session.sources)
  }

  predicate TurnsOk(sources: seq<Source>) {
    (forall i :: 0 <= i < |sources| ==> TurnOk(sources[i])) && Distinct(sources) && OneInstant(sources)
  }

  function IdSet(sources: seq<Source>): set<string> {
    set s | s in sources :: s.id
  }

  lemma TurnsSnoc(init: seq<Source>, last: Source)
    ensures TurnsOk(init + [last]) <==>
              && TurnsOk(init) && TurnOk(last) && last.id !in IdSet(init)
              && (init == [] || last.observedAt.instant == init[0].observedAt.instant)
    ensures IdSet(init + [last]) == IdSet(init) + {last.id}
  {
    var all := init + [last];
    assert forall i :: 0 <= i < |init| ==> all[i] == init[i];
    assert all[|init|] == last;
    if TurnsOk(all) {
      assert forall i :: 0 <= i < |init| ==> TurnOk(init[i]) by {
        assert forall i :: 0 <= i < |init| ==> TurnOk(all[i]);
      }
    }
  }

  lemma TurnsPrefix(sources: seq<Source>, n: nat)
    requires TurnsOk(sources) && n <= |sources|
    ensures TurnsOk(sources[..n])
  {
    assert forall i :: 0 <= i < n ==> sources[..n][i] == sources[i];
  }

  /** The validation pass over the turns: each checked before any episode is planned. */
  method ValidateTurns(sources: seq<Source>) returns (ok: bool, usable: seq<Source>, blank: seq<string>)
    ensures ok <==> TurnsOk(sources)
    ensures ok ==> usable == Usable(sources) && blank == BlankIds(sources)
  {
    usable, blank := [], [];
    var seen: set<string>, i := {}, 0;
    while i < |sources|
      invariant 0 <= i <= |sources|
      invariant TurnsOk(sources[..i]) && seen == IdSet(sources[..i])
      invariant usable == Usable(sources[..i]) && blank == BlankIds(sources[..i])
    {
      var source := sources[i];
      assert sources[..i + 1] == sources[..i] + [source];
      TurnsSnoc(sources[..i], source);
      if !TurnOk(source) || source.id in seen || source.observedAt.instant != sources[0].observedAt.instant {
        if TurnsOk(sources) { TurnsPrefix(sources, i + 1); }
        return false, [], [];
      }
      seen := seen + {source.id};
      if Blank(source.text) {
        blank := blank + [source.id];
      } else {
        usable := usable + [source];
      }
      i := i + 1;
    }
    assert sources[..i] == sources;
    ok := true;
  }

  function BlankIds(sources: seq<Source>): seq<string> {
    if sources == [] then []
    else
      var init, last := BlankIds(sources[..|sources| - 1]), sources[|sources| - 1];
      if Blank(last.text) then init + [last.id] else init
  }

  /** Usable turns inherit what the session guarantees. */
  lemma {:induction false} UsableOk(sources: seq<Source>)
    requires (forall i :: 0 <= i < |sources| ==> TurnOk(sources[i])) && Distinct(sources)
    ensures forall i :: 0 <= i < |Usable(sources)| ==> SourceOk(Usable(sources)[i])
    ensures Distinct(Usable(sources))
    decreases |sources|
  {
    if sources == [] {
    } else {
      var init, last := sources[..|sources| - 1], sources[|sources| - 1];
      UsableOk(init);
      forall i | 0 <= i < |Usable(init)|
        ensures Usable(init)[i].id != last.id
      {
        assert Usable(init)[i] in init;
      }
    }
  }

  // ---- packing ----

  /** The context a segment starting at `start` may reuse: the turn before it, if both fit. */
  predicate Reuses(usable: seq<Source>, start: nat, policy: Policy)
    requires start < |usable|
  {
    && start > 0 && policy.overlap && policy.maxSources > 1
    && |usable[start - 1].text| + |usable[start].text| <= policy.targetChars
  }

  function Chosen(usable: seq<Source>, start: nat, end: nat, policy: Policy): seq<Source>
    requires start < end <= |usable|
  {
    (if Reuses(usable, start, policy) then [usable[start - 1]] else []) + usable[start..end]
  }

  /** A segment that respects the limits and could not have taken one more turn. */
  predicate Packed(usable: seq<Source>, start: nat, end: nat, policy: Policy) {
    && start < end <= |usable|
    && var chosen := Chosen(usable, start, end, policy);
       && |chosen| <= policy.maxSources
       && (Size(chosen) <= policy.targetChars || (end == start + 1 && !Reuses(usable, start, policy)))
       && (end < |usable| ==>
             |chosen| == policy.maxSources || Size(chosen) + |usable[end].text| > policy.targetChars)
  }

  function SegmentId(session: Session, policy: Policy, index: nat, digest: Digested -> string): string
    requires SixtyFourDigits(digest)
  {
    "segment-" + digest(OfSegment(digest(OfPolicy(SEGMENT_VERSION, session, policy)), index))[..32]
  }

  /** Row `index` of the plan covers the new turns from `start` to `end`. */
  ghost predicate RowOk(row: Row, index: nat, start: nat, end: nat,
                        session: Session, usable: seq<Source>, policy: Policy, digest: Digested -> string)
    requires SixtyFourDigits(digest)
  {
    && Packed(usable, start, end, policy)
    && var chosen, reuses := Chosen(usable, start, end, policy), Reuses(usable, start, policy);
       && row.episode == Episode(session.about, SegmentId(session, policy, index, digest), chosen)
       && row.newSourceIds == Ids(usable[start..end])
       && row.contextSourceIds == (if reuses then [usable[start - 1].id] else [])
       && row.contextOmitted == (if start > 0 && policy.overlap && !reuses then Some(usable[start - 1].id) else None)
       && row.sourceChars == Size(chosen)
       && row.wholeTurnExceedsTarget == (Size(chosen) > policy.targetChars)
  }

  /** Boundaries that cover the turns from first to last, none empty. */
  predicate Covers(cuts: seq<nat>, n: nat) {
    && |cuts| > 0 && cuts[0] == 0 && cuts[|cuts| - 1] == n
    && (forall k :: 0 <= k < |cuts| - 1 ==> cuts[k] < cuts[k + 1])
  }

  lemma StretchOk(usable: seq<Source>, first: nat, end: nat)
    requires first <= end <= |usable|
    requires (forall i :: 0 <= i < |usable| ==> SourceOk(usable[i])) && Distinct(usable)
    ensures forall i :: 0 <= i < end - first ==> SourceOk(usable[first..end][i])
    ensures Distinct(usable[first..end])
  {
  }

  /** What is chosen is a stretch of the turns, small enough for the writer. */
  lemma ChosenFits(usable: seq<Source>, policy: Policy, start: nat, end: nat) returns (first: nat)
    requires Packed(usable, start, end, policy) && policy.targetChars <= TEXT_LIMIT && policy.maxSources <= 128
    requires |usable[start].text| <= TEXT_LIMIT
    ensures first <= start && Chosen(usable, start, end, policy) == usable[first..end]
    ensures 1 <= end - first <= 128 && Size(usable[first..end]) <= TEXT_LIMIT
  {
    first := if Reuses(usable, start, policy) then start - 1 else start;
    assert Chosen(usable, start, end, policy) == usable[first..end];
    if end == start + 1 && first == start {
      assert usable[first..end] == [usable[start]];
      SizeSingle(usable[start]);
    }
  }

  /** Every stretch the packing can choose is an acceptable episode. */
  lemma ChosenOk(session: Session, policy: Policy, start: nat, end: nat, id: string)
    requires SessionOk(session, policy.targetChars, policy.maxSources)
    requires Packed(Usable(session.sources), start, end, policy)
    requires Accepted(id, 256)
    ensures EpisodeOk(Episode(session.about, id, Chosen(Usable(session.sources), start, end, policy)))
  {
    var usable := Usable(session.sources);
    UsableOk(session.sources);
    assert SourceOk(usable[start]);
    var first := ChosenFits(usable, policy, start, end);
    StretchOk(usable, first, end);
  }

  lemma SegmentIdOk(session: Session, policy: Policy, index: nat, digest: Digested -> string)
    requires SixtyFourDigits(digest)
    ensures Accepted(SegmentId(session, policy, index, digest), 256)
  {
    var id := SegmentId(session, policy, index, digest);
    assert id[0] == 's' && |id| == 40;
  }

  /** The packing so far: within the limits, at least one new turn. */
  predicate Packing(usable: seq<Source>, start: nat, end: nat, policy: Policy, chosen: seq<Source>, size: nat) {
    && start < end <= |usable| && chosen == Chosen(usable, start, end, policy) && size == Size(chosen)
    && |chosen| <= policy.maxSources
    && (size <= policy.targetChars || (end == start + 1 && !Reuses(usable, start, policy)))
  }

  lemma PackOneMore(usable: seq<Source>, start: nat, end: nat, policy: Policy, chosen: seq<Source>, size: nat)
    requires Packing(usable, start, end, policy, chosen, size)
    requires end < |usable| && |chosen| < policy.maxSources && size + |usable[end].text| <= policy.targetChars
    ensures Packing(usable, start, end + 1, policy, chosen + [usable[end]], size + |usable[end].text|)
  {
    SizeAppend(chosen, [usable[end]]);
    SizeSingle(usable[end]);
    assert usable[start..end + 1] == usable[start..end] + [usable[end]];
  }

  lemma PackFirst(usable: seq<Source>, start: nat, policy: Policy)
    requires start < |usable| && policy.maxSources >= 1
    ensures var context := if Reuses(usable, start, policy) then [usable[start - 1]] else [];
            Packing(usable, start, start + 1, policy, context + [usable[start]],
                    (if context == [] then 0 else |context[0].text|) + |usable[start].text|)
  {
    var context := if Reuses(usable, start, policy) then [usable[start - 1]] else [];
    SizeAppend(context, [usable[start]]);
    SizeSingle(usable[start]);
    if context != [] { SizeSingle(usable[start - 1]); }
    assert usable[start..start + 1] == [usable[start]];
  }

  lemma PackEnds(usable: seq<Source>, start: nat, end: nat, policy: Policy, chosen: seq<Source>, size: nat)
    requires Packing(usable, start, end, policy, chosen, size)
    requires end < |usable| ==> |chosen| >= policy.maxSources || size + |usable[end].text| > policy.targetChars
    ensures Packed(usable, start, end, policy)
  {
  }

  /** As many more turns as fit. */
  method Fill(usable: seq<Source>, start: nat, policy: Policy, first: seq<Source>, firstSize: nat)
    returns (chosen: seq<Source>, size: nat, end: nat)
    requires Packing(usable, start, start + 1, policy, first, firstSize)
    ensures Packing(usable, start, end, policy, chosen, size) && Packed(usable, start, end, policy)
  {
    chosen, size, end := first, firstSize, start + 1;
    while end < |usable| && |chosen| < policy.maxSources && size + |usable[end].text| <= policy.targetChars
      invariant Packing(usable, start, end, policy, chosen, size)
    {
      PackOneMore(usable, start, end, policy, chosen, size);
      chosen, size, end := chosen + [usable[end]], size + |usable[end].text|, end + 1;
    }
    PackEnds(usable, start, end, policy, chosen, size);
  }

  /** One row: the context if it fits, one turn always, then as many as fit. */
  method PackRow(usable: seq<Source>, start: nat, policy: Policy)
    returns (chosen: seq<Source>, reused: seq<string>, size: nat, end: nat)
    requires start < |usable| && policy.maxSources >= 1
    ensures Packed(usable, start, end, policy)
    ensures chosen == Chosen(usable, start, end, policy) && size == Size(chosen)
    ensures reused == if Reuses(usable, start, policy) then [usable[start - 1].id] else []
  {
    chosen, reused := [], [];
    if start > 0 && policy.overlap && policy.maxSources > 1
       && |usable[start - 1].text| + |usable[start].text| <= policy.targetChars
    {
      chosen, reused := [usable[start - 1]], [usable[start - 1].id];
    }
    PackFirst(usable, start, policy);
    size := (if chosen == [] then 0 else |chosen[0].text|) + |usable[start].text|;
    chosen, size, end := Fill(usable, start, policy, chosen + [usable[start]], size);
  }

  /** Row `index`, and the check the planned episode cannot fail. */
  method PlanRow(session: Session, usable: seq<Source>, start: nat, index: nat, policy: Policy, digest: Digested -> string)
    returns (row: Option<Row>, end: nat)
    requires SixtyFourDigits(digest)
    requires SessionOk(session, policy.targetChars, policy.maxSources)
    requires usable == Usable(session.sources) && start < |usable|
    ensures row.Some? && RowOk(row.value, index, start, end, session, usable, policy, digest)
  {
    var chosen, reused, size;
    chosen, reused, size, end := PackRow(usable, start, policy);
    var id := SegmentId(session, policy, index, digest);
    SegmentIdOk(session, policy, index, digest);
    ChosenOk(session, policy, start, end, id);
    var episode := Episode(session.about, id, chosen);
    var accepted := CheckEpisode(episode);
    if !accepted {
      return None, end;
    }
    var omitted := if start > 0 && policy.overlap && reused == [] then Some(usable[start - 1].id) else None;
    return Some(Row(episode, Ids(usable[start..end]), reused, omitted, size, size > policy.targetChars)), end;
  }

  /** `segment_session`: accepted exactly on the sessions the boundary accepts, so the check on
      each planned episode never refuses; the rows cover every usable turn once, in order. */
  method SegmentSession(session: Session, target: nat, maxSources: nat, overlap: bool, digest: Digested -> string)
    returns (r: Result<Segmented, Refusal>, ghost cuts: seq<nat>)
    requires SixtyFourDigits(digest)
    ensures r.Ok? <==> SessionOk(session, target, maxSources)
    ensures r.Ok? ==> r.value.policy == Policy(target, maxSources, overlap)
                      && r.value.excludedBlankSourceIds == BlankIds(session.sources)
                      && RowsOk(r.value.episodes, cuts, session, Usable(session.sources), r.value.policy, digest)
                      && Covers(cuts, |Usable(session.sources)|)
  {
    if !Accepted(session.sessionId, 256) || !(1 <= target <= TEXT_LIMIT) || !(1 <= maxSources <= 128)
       || !AboutOk(session.about)
    {
      return Err(ValueError), [];
    }
    var ok, usable, blank := ValidateTurns(session.sources);
    if !ok {
      return Err(ValueError), [];
    }
    var policy := Policy(target, maxSources, overlap);
    var rows, index := [], 0;
    cuts := [0];
    while index < |usable|
      invariant 0 <= index <= |usable|
      invariant Covers(cuts, index) && RowsOk(rows, cuts, session, usable, policy, digest)
    {
      var row, end := PlanRow(session, usable, index, |rows|, policy, digest);
      if row.None? {
        return Err(ValueError), [];
      }
      rows, index, cuts := rows + [row.value], end, cuts + [end];
    }
    return Ok(Segmented(rows, blank, policy)), cuts;
  }

  ghost predicate RowsOk(rows: seq<Row>, cuts: seq<nat>, session: Session, usable: seq<Source>, policy: Policy,
                         digest: Digested -> string)
    requires SixtyFourDigits(digest)
  {
    && |cuts| == |rows| + 1
    && forall k :: 0 <= k < |rows| ==> RowOk(rows[k], k, cuts[k], cuts[k + 1], session, usable, policy, digest)
  }

  // ---- what a plan promises ----

  function NewIds(rows: seq<Row>): seq<string> {
    if rows == [] then [] else NewIds(rows[..|rows| - 1]) + rows[|rows| - 1].newSourceIds
  }

  predicate NewTurns(rows: seq<Row>, cuts: seq<nat>, usable: seq<Source>) {
    && |cuts| == |rows| + 1
    && forall k :: 0 <= k < |rows| ==> NewTurn(rows[k], cuts[k], cuts[k + 1], usable)
  }

  predicate NewTurn(row: Row, start: nat, end: nat, usable: seq<Source>) {
    start < end <= |usable| && row.newSourceIds == Ids(usable[start..end])
  }

  lemma IdsAppend(usable: seq<Source>, cut: nat, n: nat)
    requires cut <= n <= |usable|
    ensures Ids(usable[..n]) == Ids(usable[..cut]) + Ids(usable[cut..n])
  {
    assert usable[..n] == usable[..cut] + usable[cut..n];
  }

  lemma NewIdsSnoc(rows: seq<Row>)
    requires rows != []
    ensures NewIds(rows) == NewIds(rows[..|rows| - 1]) + rows[|rows| - 1].newSourceIds
  {
  }

  lemma {:induction false} NewTurnsInOrder(rows: seq<Row>, cuts: seq<nat>, usable: seq<Source>, n: nat)
    requires NewTurns(rows, cuts, usable) && Covers(cuts, n) && n <= |usable|
    ensures NewIds(rows) == Ids(usable[..n])
    decreases |rows|
  {
    if |rows| > 0 {
      var k := |rows| - 1;
      var init, cut := rows[..k], cuts[..k + 1];
      assert NewTurns(init, cut, usable) && Covers(cut, cuts[k]) by {
        forall j | 0 <= j < k
          ensures NewTurn(init[j], cut[j], cut[j + 1], usable)
        {
          assert NewTurn(rows[j], cuts[j], cuts[j + 1], usable);
        }
      }
      assert NewTurn(rows[k], cuts[k], cuts[k + 1], usable);
      NewTurnsInOrder(init, cut, usable, cuts[k]);
      IdsAppend(usable, cuts[k], n);
      NewIdsSnoc(rows);
    }
  }

  /** The new source ids, row after row, are exactly the usable turns in order: none is lost,
      repeated or moved, whatever is reused as context. */
  lemma NewIdsInOrder(
      rows: seq<Row>, cuts: seq<nat>, session: Session, usable: seq<Source>, policy: Policy, digest: Digested -> string)
    requires SixtyFourDigits(digest)
    requires RowsOk(rows, cuts, session, usable, policy, digest) && Covers(cuts, |usable|)
    ensures NewIds(rows) == Ids(usable)
  {
    forall k | 0 <= k < |rows|
      ensures NewTurn(rows[k], cuts[k], cuts[k + 1], usable)
    {
      assert RowOk(rows[k], k, cuts[k], cuts[k + 1], session, usable, policy, digest);
    }
    NewTurnsInOrder(rows, cuts, usable, |usable|);
    assert usable[..|usable|] == usable;
  }

  /** Every row keeps the limits: at most `maxSources` turns and the writer's hard character
      limit, above the target only with one turn alone; and its context is the turn before it,
      or is recorded as left out. */
  lemma RowKeepsLimits(row: Row, index: nat, start: nat, end: nat, session: Session, policy: Policy, digest: Digested -> string)
    requires SixtyFourDigits(digest)
    requires SessionOk(session, policy.targetChars, policy.maxSources)
    requires RowOk(row, index, start, end, session, Usable(session.sources), policy, digest)
    ensures |row.episode.sources| <= policy.maxSources && row.sourceChars == Size(row.episode.sources) <= TEXT_LIMIT
    ensures row.wholeTurnExceedsTarget ==> |row.episode.sources| == 1
    ensures EpisodeOk(row.episode)
    ensures var usable := Usable(session.sources);
            if start == 0 || !policy.overlap then row.contextSourceIds == [] && row.contextOmitted.None?
            else
              || (row.contextSourceIds == [usable[start - 1].id] && row.contextOmitted.None?
                  && row.episode.sources[0] == usable[start - 1])
              || (row.contextSourceIds == [] && row.contextOmitted == Some(usable[start - 1].id))
  {
    var usable := Usable(session.sources);
    SegmentIdOk(session, policy, index, digest);
    ChosenOk(session, policy, start, end, row.episode.episodeId);
  }

  /** One turn, or as many as the limits allow. */
  predicate Fits(usable: seq<Source>, start: nat, end: nat, policy: Policy) {
    && start < end <= |usable|
    && (end == start + 1
        || (end - start <= policy.maxSources && Size(usable[start..end]) <= policy.targetChars))
  }

  /** Any contiguous split that respects the limits; a turn over the target stands alone. */
  predicate Splits(cuts: seq<nat>, usable: seq<Source>, policy: Policy) {
    && Covers(cuts, |usable|)
    && forall k :: 0 <= k < |cuts| - 1 ==> Fits(usable, cuts[k], cuts[k + 1], policy)
  }

  lemma CutsBounded(cuts: seq<nat>, n: nat, k: nat)
    requires Covers(cuts, n) && k < |cuts|
    ensures cuts[k] <= n && (k < |cuts| - 1 ==> cuts[k] < n)
    decreases |cuts| - k
  {
    if k < |cuts| - 1 { CutsBounded(cuts, n, k + 1); }
  }

  lemma SizeWithin(usable: seq<Source>, a: nat, b: nat, c: nat, d: nat)
    requires a <= b <= c <= d <= |usable|
    ensures Size(usable[b..c]) <= Size(usable[a..d])
  {
    assert usable[a..d] == usable[a..b] + usable[b..c] + usable[c..d];
    SizeAppend(usable[a..b] + usable[b..c], usable[c..d]);
    SizeAppend(usable[a..b], usable[b..c]);
  }

  /** A packed segment that begins no earlier ends no earlier. */
  lemma GreedyReaches(usable: seq<Source>, policy: Policy, start: nat, end: nat, other: nat, other': nat)
    requires Packed(usable, start, end, policy) && !policy.overlap
    requires other <= start && Fits(usable, other, other', policy)
    ensures other' <= end
  {
    if end < other' {
      assert Chosen(usable, start, end, policy) == usable[start..end];
      assert usable[start..end + 1] == usable[start..end] + [usable[end]];
      SizeAppend(usable[start..end], [usable[end]]);
      SizeSingle(usable[end]);
      SizeWithin(usable, other, start, end + 1, other');
    }
  }

  /** Greedy stays ahead: after as many segments, the packing has covered at least as much. */
  lemma {:induction false} GreedyStaysAhead(
      rows: seq<Row>, cuts: seq<nat>, session: Session, usable: seq<Source>, policy: Policy, digest: Digested -> string,
      others: seq<nat>, k: nat)
    requires SixtyFourDigits(digest)
    requires RowsOk(rows, cuts, session, usable, policy, digest) && Covers(cuts, |usable|) && !policy.overlap
    requires Splits(others, usable, policy)
    requires k < |cuts| && k < |others|
    ensures others[k] <= cuts[k]
    decreases k
  {
    if k > 0 {
      GreedyStaysAhead(rows, cuts, session, usable, policy, digest, others, k - 1);
      assert RowOk(rows[k - 1], k - 1, cuts[k - 1], cuts[k], session, usable, policy, digest);
      GreedyReaches(usable, policy, cuts[k - 1], cuts[k], others[k - 1], others[k]);
    }
  }

  /** Without overlap the plan has the fewest episodes of any split that respects the limits. */
  lemma FewestEpisodes(
      rows: seq<Row>, cuts: seq<nat>, session: Session, usable: seq<Source>, policy: Policy, digest: Digested -> string,
      others: seq<nat>)
    requires SixtyFourDigits(digest)
    requires RowsOk(rows, cuts, session, usable, policy, digest) && Covers(cuts, |usable|) && !policy.overlap
    requires Splits(others, usable, policy)
    ensures |rows| <= |others| - 1
  {
    if |others| < |cuts| {
      var k := |others| - 1;
      GreedyStaysAhead(rows, cuts, session, usable, policy, digest, others, k);
      CutsBounded(cuts, |usable|, k);
    }
  }

  // ---- one plan only ----

  lemma PackedEndsOnce(usable: seq<Source>, policy: Policy, start: nat, end: nat, end': nat)
    requires Packed(usable, start, end, policy) && Packed(usable, start, end', policy)
    ensures end' <= end
  {
    if end < end' {
      var less, more := Chosen(usable, start, end, policy), Chosen(usable, start, end', policy);
      assert more == less + usable[end..end'];
      assert usable[end..end'] == [usable[end]] + usable[end + 1..end'];
      SizeAppend(less, usable[end..end']);
      SizeAppend([usable[end]], usable[end + 1..end']);
      SizeSingle(usable[end]);
    }
  }

  lemma {:induction false} CutsAgree(
      rows: seq<Row>, cuts: seq<nat>, rows': seq<Row>, cuts': seq<nat>, session: Session, usable: seq<Source>, policy: Policy,
      digest: Digested -> string, k: nat)
    requires SixtyFourDigits(digest)
    requires RowsOk(rows, cuts, session, usable, policy, digest) && Covers(cuts, |usable|)
    requires RowsOk(rows', cuts', session, usable, policy, digest) && Covers(cuts', |usable|)
    requires k < |cuts| && k < |cuts'|
    ensures cuts[k] == cuts'[k]
    decreases k
  {
    if k > 0 {
      CutsAgree(rows, cuts, rows', cuts', session, usable, policy, digest, k - 1);
      assert RowOk(rows[k - 1], k - 1, cuts[k - 1], cuts[k], session, usable, policy, digest);
      assert RowOk(rows'[k - 1], k - 1, cuts'[k - 1], cuts'[k], session, usable, policy, digest);
      PackedEndsOnce(usable, policy, cuts[k - 1], cuts[k], cuts'[k]);
      PackedEndsOnce(usable, policy, cuts[k - 1], cuts'[k], cuts[k]);
    }
  }

  /** A session and a policy fix the plan: planning again gives the same episodes. */
  lemma PlanIsUnique(
      rows: seq<Row>, cuts: seq<nat>, rows': seq<Row>, cuts': seq<nat>, session: Session, usable: seq<Source>, policy: Policy,
      digest: Digested -> string)
    requires SixtyFourDigits(digest)
    requires RowsOk(rows, cuts, session, usable, policy, digest) && Covers(cuts, |usable|)
    requires RowsOk(rows', cuts', session, usable, policy, digest) && Covers(cuts', |usable|)
    ensures rows == rows' && cuts == cuts'
  {
    var least := if |cuts| < |cuts'| then |cuts| else |cuts'|;
    CutsAgree(rows, cuts, rows', cuts', session, usable, policy, digest, least - 1);
    if |cuts| < |cuts'| { CutsBounded(cuts', |usable|, least - 1); }
    if |cuts'| < |cuts| { CutsBounded(cuts, |usable|, least - 1); }
    forall k | 0 <= k < |cuts|
      ensures cuts[k] == cuts'[k]
    {
      CutsAgree(rows, cuts, rows', cuts', session, usable, policy, digest, k);
    }
    forall k | 0 <= k < |rows|
      ensures rows[k] == rows'[k]
    {
      assert RowOk(rows[k], k, cuts[k], cuts[k + 1], session, usable, policy, digest);
      assert RowOk(rows'[k], k, cuts'[k], cuts'[k + 1], session, usable, policy, digest);
    }
  }
}
