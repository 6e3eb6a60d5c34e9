/** Rank fusion, BM25 and dense ranking over one admitted snapshot; exact reals stand for floats. */
module Ranking {
  import opened Prelude
  import opened Ordering

  const WINDOW: nat := 100
  const RRF_CONSTANT: nat := 60

  /** A ranked entry: its ref and the fingerprint of the text ranked. */
  datatype Item = Item(ref: string, fingerprint: string)

  function Least(a: nat, b: nat): nat { if a < b then a else b }

  function TakeAtMost<T>(s: seq<T>, n: nat): (r: seq<T>)
    ensures r <= s && |r| == Least(n, |s|)
  {
    s[..Least(n, |s|)]
  }

  // ---- the first of every ref ----

  function Refs(items: seq<Item>): set<string> {
    set i | i in items :: i.ref
  }

  function FirstRefs(items: seq<Item>): seq<Item> {
    if items == [] then []
    else
      var init, last := FirstRefs(items[..|items| - 1]), items[|items| - 1];
      if last.ref in Refs(init) then init else init + [last]
  }

  predicate RefsDistinct(items: seq<Item>) {
    forall i, j :: 0 <= i < j < |items| ==> items[i].ref != items[j].ref
  }

  lemma {:induction false} FirstRefsDistinct(items: seq<Item>)
    ensures RefsDistinct(FirstRefs(items)) && Refs(FirstRefs(items)) == Refs(items)
    ensures forall i :: i in FirstRefs(items) ==> i in items
    decreases |items|
  {
    if items == [] {
    } else {
      var init, last := items[..|items| - 1], items[|items| - 1];
      assert items == init + [last];
      FirstRefsDistinct(init);
      assert Refs(items) == Refs(init) + {last.ref};
    }
  }

  lemma {:induction false} FirstRefsGrows(items: seq<Item>, n: nat)
    requires n <= |items|
    ensures FirstRefs(items[..n]) <= FirstRefs(items)
    decreases |items|
  {
    if n < |items| {
      FirstRefsGrows(items[..|items| - 1], n);
      assert items[..|items| - 1][..n] == items[..n];
    } else {
      TakeAll(items);
    }
  }

  /** `unique_refs`, and the loop of the dense ranking: the first of every ref, at most `k` of them. */
  method UniqueRefs(ranking: seq<Item>, k: nat) returns (r: seq<Item>)
    requires k > 0
    ensures r == TakeAtMost(FirstRefs(ranking), k)
  {
    r := [];
    var seen: set<string> := {};
    for i := 0 to |ranking|
      invariant r == FirstRefs(ranking[..i]) && |r| < k && seen == Refs(r)
    {
      TakeSnoc(ranking, i);
      if ranking[i].ref !in seen {
        seen, r := seen + {ranking[i].ref}, r + [ranking[i]];
      }
      if |r| == k {
        FirstRefsGrows(ranking, i + 1);
        return;
      }
    }
    TakeAll(ranking);
  }

  // ---- fusion ----

  /** The places of a ranking that count. */
  function Window(ranking: seq<Item>): seq<Item> {
    TakeAtMost(FirstRefs(ranking), WINDOW)
  }

  function PlaceIn(items: seq<Item>, ref: string): (r: Option<nat>)
    ensures r.Some? ==> r.value < |items| && items[r.value].ref == ref
    ensures r.None? ==> ref !in Refs(items)
  {
    if items == [] then None
    else
      var init, last := items[..|items| - 1], items[|items| - 1];
      assert items == init + [last];
      var place := PlaceIn(init, ref);
      if place.Some? then place else if last.ref == ref then Some(|init|) else None
  }

  function Vote(place: nat): (v: real)
    ensures v > 0.0
  {
    1.0 / (RRF_CONSTANT + place + 1) as real
  }

  function Votes(ranking: seq<Item>, ref: string): (v: real)
    ensures v >= 0.0
  {
    var place := PlaceIn(Window(ranking), ref);
    if place.Some? then Vote(place.value) else 0.0
  }

  function Score(rankings: seq<seq<Item>>, ref: string): real {
    if rankings == [] then 0.0 else Score(rankings[..|rankings| - 1], ref) + Votes(rankings[|rankings| - 1], ref)
  }

  function Voted(rankings: seq<seq<Item>>): set<string> {
    if rankings == [] then {} else Voted(rankings[..|rankings| - 1]) + Refs(Window(rankings[|rankings| - 1]))
  }

  /** The fingerprint of the first channel that ranks the ref. */
  function FirstFingerprint(rankings: seq<seq<Item>>, ref: string): string {
    if rankings == [] then ""
    else if ref in Voted(rankings[..|rankings| - 1]) then FirstFingerprint(rankings[..|rankings| - 1], ref)
    else
      var window := Window(rankings[|rankings| - 1]);
      var place := PlaceIn(window, ref);
      if place.Some? then window[place.value].fingerprint else ""
  }

  /** Higher scores first, equal scores by ref. */
  predicate ScoredLe(scores: string -> real, a: string, b: string) {
    scores(a) > scores(b) || (scores(a) == scores(b) && TextLe(a, b))
  }

  function ByScore(scores: string -> real): (string, string) -> bool {
    (a: string, b: string) => ScoredLe(scores, a, b)
  }

  lemma ByScoreOrders(scores: string -> real)
    ensures Orders(ByScore(scores))
  {
    TextOrders();
  }

  function Scores(rankings: seq<seq<Item>>): string -> real {
    (ref: string) => Score(rankings, ref)
  }

  /** Every ref that counts somewhere, best first. */
  function FusedOrder(rankings: seq<seq<Item>>): seq<string> {
    ByScoreOrders(Scores(rankings));
    SortedSet(Voted(rankings), ByScore(Scores(rankings)))
  }

  function Fused(rankings: seq<seq<Item>>, topK: nat): (r: seq<Item>)
    ensures |r| == Least(topK, |FusedOrder(rankings)|)
    ensures forall i :: 0 <= i < |r| ==> r[i].ref == FusedOrder(rankings)[i]
  {
    var order := TakeAtMost(FusedOrder(rankings), topK);
    seq(|order|, i requires 0 <= i < |order| => Item(order[i], FirstFingerprint(rankings, order[i])))
  }

  // The loops of `fuse`: the votes of one ranking, then of the next.

  function VotesIn(items: seq<Item>, ref: string): real {
    var place := PlaceIn(items, ref);
    if place.Some? then Vote(place.value) else 0.0
  }

  lemma PlaceSnoc(items: seq<Item>, item: Item, ref: string)
    ensures PlaceIn(items + [item], ref) ==
            if ref in Refs(items) then PlaceIn(items, ref) else if ref == item.ref then Some(|items|) else None
  {
    var more := items + [item];
    assert more[..|more| - 1] == items;
    PlaceIffThere(items, ref);
  }

  lemma {:induction false} PlaceIffThere(items: seq<Item>, ref: string)
    ensures PlaceIn(items, ref).Some? <==> ref in Refs(items)
    decreases |items|
  {
    if items == [] {
    } else {
      var init, last := items[..|items| - 1], items[|items| - 1];
      assert items == init + [last];
      PlaceIffThere(init, ref);
      assert Refs(items) == Refs(init) + {last.ref};
    }
  }

  lemma {:induction false} RefsCount(items: seq<Item>)
    requires RefsDistinct(items)
    ensures |Refs(items)| == |items|
    decreases |items|
  {
    if items == [] {
    } else {
      var init, last := items[..|items| - 1], items[|items| - 1];
      assert items == init + [last] && forall i :: 0 <= i < |init| ==> init[i] == items[i];
      RefsCount(init);
      assert Refs(items) == Refs(init) + {last.ref};
    }
  }

  function Had(scores: map<string, real>, ref: string): real {
    if ref in scores then scores[ref] else 0.0
  }

  /** What one ranking's counted places make of the scores so far. */
  ghost predicate Scored(scores: map<string, real>, scores': map<string, real>, items: seq<Item>) {
    && scores'.Keys == scores.Keys + Refs(items)
    && forall ref :: ref in scores' ==> scores'[ref] == Had(scores, ref) + VotesIn(items, ref)
  }

  /** And of the fingerprints: the first channel's is kept. */
  ghost predicate Kept(prints: map<string, string>, prints': map<string, string>, items: seq<Item>) {
    && prints'.Keys == prints.Keys + Refs(items)
    && forall ref :: ref in prints' ==> prints'[ref] == PrintOf(prints, items, ref)
  }

  function PrintOf(prints: map<string, string>, items: seq<Item>, ref: string): string {
    if ref in prints then prints[ref]
    else
      var place := PlaceIn(items, ref);
      if place.Some? then items[place.value].fingerprint else ""
  }

  lemma RefsSnoc(items: seq<Item>, item: Item)
    ensures Refs(items + [item]) == Refs(items) + {item.ref}
  {
  }

  lemma ScoreOne(scores: map<string, real>, before: map<string, real>, items: seq<Item>, item: Item)
    requires Scored(scores, before, items) && item.ref !in Refs(items)
    ensures Scored(scores, before[item.ref := Had(before, item.ref) + Vote(|items|)], items + [item])
  {
    RefsSnoc(items, item);
    PlaceIffThere(items, item.ref);
    forall ref
      ensures VotesIn(items + [item], ref) == if ref == item.ref then Vote(|items|) else VotesIn(items, ref)
    {
      PlaceSnoc(items, item, ref);
      PlaceIffThere(items, ref);
    }
  }

  lemma PrintSnoc(prints: map<string, string>, items: seq<Item>, item: Item, ref: string)
    requires item.ref !in Refs(items)
    ensures PrintOf(prints, items + [item], ref) ==
            if ref == item.ref && ref !in prints then item.fingerprint else PrintOf(prints, items, ref)
  {
    PlaceSnoc(items, item, ref);
    PlaceIffThere(items, ref);
  }

  lemma KeepOne(prints: map<string, string>, printed: map<string, string>, items: seq<Item>, item: Item)
    requires Kept(prints, printed, items) && item.ref !in Refs(items)
    ensures Kept(prints, if item.ref in printed then printed else printed[item.ref := item.fingerprint], items + [item])
  {
    RefsSnoc(items, item);
    var more := if item.ref in printed then printed else printed[item.ref := item.fingerprint];
    forall ref | ref in more
      ensures more[ref] == PrintOf(prints, items + [item], ref)
    {
      PrintSnoc(prints, items, item, ref);
    }
  }

  lemma CountNothing(scores: map<string, real>, prints: map<string, string>)
    ensures Scored(scores, scores, []) && Kept(prints, prints, [])
  {
  }

  /** The item is new and there is room for it. */
  method Take(scores: map<string, real>, prints: map<string, string>, ghost had: map<string, real>, ghost printed: map<string, string>,
              ghost taken: seq<Item>, item: Item, place: nat)
    returns (scores': map<string, real>, prints': map<string, string>)
    requires Scored(had, scores, taken) && Kept(printed, prints, taken) && item.ref !in Refs(taken) && place == |taken|
    ensures Scored(had, scores', taken + [item]) && Kept(printed, prints', taken + [item])
  {
    ScoreOne(had, scores, taken, item);
    KeepOne(printed, prints, taken, item);
    scores' := scores[item.ref := Had(scores, item.ref) + Vote(place)];
    prints' := if item.ref in prints then prints else prints[item.ref := item.fingerprint];
  }

  /** The different refs so far, counted by the set of them. */
  predicate Seen(ranking: seq<Item>, i: nat, taken: seq<Item>, seen: set<string>)
    requires i <= |ranking|
  {
    taken == FirstRefs(ranking[..i]) && |taken| <= WINDOW && seen == Refs(taken) && |seen| == |taken|
  }

  lemma SeenStep(ranking: seq<Item>, i: nat, taken: seq<Item>, seen: set<string>)
    requires i < |ranking| && Seen(ranking, i, taken, seen)
    ensures ranking[i].ref in seen ==> Seen(ranking, i + 1, taken, seen)
    ensures ranking[i].ref !in seen && |seen| < WINDOW ==> Seen(ranking, i + 1, taken + [ranking[i]], seen + {ranking[i].ref})
    ensures |seen| == WINDOW ==> taken == Window(ranking)
    ensures i + 1 == |ranking| && ranking[i].ref in seen ==> taken == Window(ranking)
  {
    TakeSnoc(ranking, i);
    RefsSnoc(taken, ranking[i]);
    FirstRefsGrows(ranking, i);
    TakeAll(ranking);
  }

  lemma SeenAll(ranking: seq<Item>, taken: seq<Item>, seen: set<string>)
    requires Seen(ranking, |ranking|, taken, seen)
    ensures taken == Window(ranking)
  {
    TakeAll(ranking);
  }

  /** One ranking: the first hundred different refs vote by place, repeats are passed over. */
  method TakeVotes(scores: map<string, real>, prints: map<string, string>, ranking: seq<Item>)
    returns (scores': map<string, real>, prints': map<string, string>)
    ensures Scored(scores, scores', Window(ranking)) && Kept(prints, prints', Window(ranking))
  {
    scores', prints' := scores, prints;
    var seen: set<string> := {};
    ghost var taken: seq<Item> := [];
    CountNothing(scores, prints);
    for i := 0 to |ranking|
      invariant Seen(ranking, i, taken, seen)
      invariant Scored(scores, scores', taken) && Kept(prints, prints', taken)
    {
      SeenStep(ranking, i, taken, seen);
      if ranking[i].ref !in seen {
        if |seen| == WINDOW {
          return;
        }
        scores', prints' := Take(scores', prints', scores, prints, taken, ranking[i], |seen|);
        seen, taken := seen + {ranking[i].ref}, taken + [ranking[i]];
      }
    }
    SeenAll(ranking, taken, seen);
  }

  /** The tallies of the rankings so far. */
  ghost predicate Totalled(scores: map<string, real>, prints: map<string, string>, rankings: seq<seq<Item>>) {
    && scores.Keys == Voted(rankings) && prints.Keys == Voted(rankings)
    && forall ref :: ref in scores ==> scores[ref] == Score(rankings, ref) && prints[ref] == FirstFingerprint(rankings, ref)
  }

  lemma {:induction false} NoVotesNoScore(rankings: seq<seq<Item>>, ref: string)
    requires ref !in Voted(rankings)
    ensures Score(rankings, ref) == 0.0
    decreases |rankings|
  {
    if rankings == [] {
    } else {
      NoVotesNoScore(rankings[..|rankings| - 1], ref);
      PlaceIffThere(Window(rankings[|rankings| - 1]), ref);
    }
  }

  lemma TotalMore(scores: map<string, real>, prints: map<string, string>, scores': map<string, real>, prints': map<string, string>,
                  rankings: seq<seq<Item>>, ranking: seq<Item>)
    requires Totalled(scores, prints, rankings)
    requires Scored(scores, scores', Window(ranking)) && Kept(prints, prints', Window(ranking))
    ensures Totalled(scores', prints', rankings + [ranking])
  {
    var more := rankings + [ranking];
    assert more[..|more| - 1] == rankings;
    forall ref | ref in scores'
      ensures scores'[ref] == Score(more, ref) && prints'[ref] == FirstFingerprint(more, ref)
    {
      if ref !in scores { NoVotesNoScore(rankings, ref); }
    }
  }

  /** `fuse`. */
  method Fuse(rankings: seq<seq<Item>>, topK: nat) returns (r: seq<Item>)
    ensures r == Fused(rankings, topK)
  {
    var scores: map<string, real>, prints: map<string, string> := map[], map[];
    for i := 0 to |rankings|
      invariant Totalled(scores, prints, rankings[..i])
    {
      TakeSnoc(rankings, i);
      ghost var had, printed := scores, prints;
      scores, prints := TakeVotes(scores, prints, rankings[i]);
      TotalMore(had, printed, scores, prints, rankings[..i], rankings[i]);
    }
    TakeAll(rankings);
    r := Ranked(scores, prints, rankings, topK);
  }

  method Ranked(scores: map<string, real>, prints: map<string, string>, ghost rankings: seq<seq<Item>>, topK: nat)
    returns (r: seq<Item>)
    requires Totalled(scores, prints, rankings)
    ensures r == Fused(rankings, topK)
  {
    var of := (ref: string) => Had(scores, ref);
    OrderIs(scores, of, rankings);
    var order := SortedSet(scores.Keys, ByScore(of));
    r := Printed(order, prints, rankings, topK);
  }

  /** The first `topK` of the order, each with its fingerprint. */
  method Printed(order: seq<string>, prints: map<string, string>, ghost rankings: seq<seq<Item>>, topK: nat) returns (r: seq<Item>)
    requires order == FusedOrder(rankings) && prints.Keys == Voted(rankings)
    requires forall ref :: ref in prints ==> prints[ref] == FirstFingerprint(rankings, ref)
    ensures r == Fused(rankings, topK)
  {
    r := [];
    for i := 0 to Least(topK, |order|)
      invariant r == Fused(rankings, topK)[..i]
    {
      FusedAt(rankings, topK, i);
      TakeSnoc(Fused(rankings, topK), i);
      r := r + [Item(order[i], prints[order[i]])];
    }
    TakeAll(Fused(rankings, topK));
  }

  lemma FusedAt(rankings: seq<seq<Item>>, topK: nat, i: nat)
    requires i < |Fused(rankings, topK)|
    ensures FusedOrder(rankings)[i] in Voted(rankings)
    ensures Fused(rankings, topK)[i] == Item(FusedOrder(rankings)[i], FirstFingerprint(rankings, FusedOrder(rankings)[i]))
  {
    ByScoreOrders(Scores(rankings));
    assert FusedOrder(rankings)[i] in FusedOrder(rankings);
  }

  lemma SameScores(scores: map<string, real>, of: string -> real, rankings: seq<seq<Item>>, a: string, b: string)
    requires scores.Keys == Voted(rankings) && forall ref :: ref in scores ==> scores[ref] == Score(rankings, ref)
    requires forall ref :: of(ref) == Had(scores, ref)
    ensures ByScore(of)(a, b) == ByScore(Scores(rankings))(a, b)
  {
    if a !in scores { NoVotesNoScore(rankings, a); }
    if b !in scores { NoVotesNoScore(rankings, b); }
  }

  /** Sorting by the scores tallied is sorting by the scores. */
  lemma OrderIs(scores: map<string, real>, of: string -> real, rankings: seq<seq<Item>>)
    requires scores.Keys == Voted(rankings) && forall ref :: ref in scores ==> scores[ref] == Score(rankings, ref)
    requires forall ref :: of(ref) == Had(scores, ref)
    ensures Orders(ByScore(of)) && SortedSet(scores.Keys, ByScore(of)) == FusedOrder(rankings)
  {
    ByScoreOrders(of);
    ByScoreOrders(Scores(rankings));
    var order, fused := SortedSet(scores.Keys, ByScore(of)), FusedOrder(rankings);
    SameMembers(order, fused);
    forall i, j | 0 <= i < j < |order|
      ensures ByScore(Scores(rankings))(order[i], order[j])
    {
      SameScores(scores, of, rankings, order[i], order[j]);
    }
    SortedUnique(order, fused, ByScore(Scores(rankings)));
  }

  // ---- dominance ----

  /** `b` does not count here, or `a` comes before it. */
  predicate NotBehind(ranking: seq<Item>, a: string, b: string) {
    var window := Window(ranking);
    PlaceIn(window, b).None? || (PlaceIn(window, a).Some? && PlaceIn(window, a).value < PlaceIn(window, b).value)
  }

  predicate Ahead(ranking: seq<Item>, a: string, b: string) {
    NotBehind(ranking, a, b) && PlaceIn(Window(ranking), a).Some?
  }

  lemma EarlierCountsMore(i: nat, j: nat)
    requires i < j
    ensures Vote(i) > Vote(j)
  {
    var x, y := (RRF_CONSTANT + i + 1) as real, (RRF_CONSTANT + j + 1) as real;
    assert 0.0 < x < y;
    ReciprocalFalls(x, y);
  }

  lemma ReciprocalFalls(x: real, y: real)
    requires 0.0 < x < y
    ensures 1.0 / x > 1.0 / y
  {
    var a, b := 1.0 / x, 1.0 / y;
    assert a * x == 1.0 && b * y == 1.0 && b > 0.0;
    assert b * x < b * y;
    Cancels(b, a, x);
  }

  lemma Cancels(b: real, a: real, x: real)
    requires x > 0.0 && b * x < a * x
    ensures b < a
  {
  }

  lemma VotesDominate(ranking: seq<Item>, a: string, b: string)
    requires NotBehind(ranking, a, b)
    ensures Votes(ranking, a) >= Votes(ranking, b)
    ensures Ahead(ranking, a, b) ==> Votes(ranking, a) > Votes(ranking, b)
  {
    var window := Window(ranking);
    if PlaceIn(window, b).Some? { EarlierCountsMore(PlaceIn(window, a).value, PlaceIn(window, b).value); }
  }

  lemma {:induction false} ScoreDominates(rankings: seq<seq<Item>>, a: string, b: string)
    requires forall r :: r in rankings ==> NotBehind(r, a, b)
    ensures Score(rankings, a) >= Score(rankings, b)
    ensures (exists r :: r in rankings && Ahead(r, a, b)) ==> Score(rankings, a) > Score(rankings, b)
    decreases |rankings|
  {
    if rankings == [] {
    } else {
      var init, last := rankings[..|rankings| - 1], rankings[|rankings| - 1];
      assert rankings == init + [last];
      ScoreDominates(init, a, b);
      assert last in rankings;
      VotesDominate(last, a, b);
    }
  }

  lemma {:induction false} AheadVotes(rankings: seq<seq<Item>>, a: string, b: string)
    requires exists r :: r in rankings && Ahead(r, a, b)
    ensures a in Voted(rankings)
    decreases |rankings|
  {
    var init, last := rankings[..|rankings| - 1], rankings[|rankings| - 1];
    assert rankings == init + [last];
    if Ahead(last, a, b) {
      PlaceIffThere(Window(last), a);
    } else {
      AheadVotes(init, a, b);
    }
  }

  lemma HigherComesFirst(scores: string -> real, order: seq<string>, i: nat, j: nat)
    requires Sorted(order, ByScore(scores)) && i < |order| && j < |order| && scores(order[i]) > scores(order[j])
    ensures i < j
  {
    assert !ByScore(scores)(order[j], order[i]);
  }

  lemma PlaceOf(order: seq<string>, ref: string) returns (i: nat)
    requires ref in order
    ensures i < |order| && order[i] == ref
  {
    i :| 0 <= i < |order| && order[i] == ref;
  }

  /** What precedes everywhere it counts, and somewhere strictly, comes out first: wherever `b` is
      returned, `a` is returned before it. */
  lemma FusionRespectsDominance(rankings: seq<seq<Item>>, topK: nat, a: string, b: string, j: nat) returns (i: nat)
    requires forall r :: r in rankings ==> NotBehind(r, a, b)
    requires exists r :: r in rankings && Ahead(r, a, b)
    requires j < |Fused(rankings, topK)| && Fused(rankings, topK)[j].ref == b
    ensures i < j && Fused(rankings, topK)[i].ref == a
  {
    ScoreDominates(rankings, a, b);
    AheadVotes(rankings, a, b);
    ByScoreOrders(Scores(rankings));
    var order := FusedOrder(rankings);
    i := PlaceOf(order, a);
    HigherComesFirst(Scores(rankings), order, i, j);
  }
}
