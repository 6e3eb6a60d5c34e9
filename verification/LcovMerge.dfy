/** Merging coverage fragments: for every line, the largest count any fragment has. */
module LcovMerge {
  import opened Prelude
  import opened Ordering
  import opened Lcov

  /** Those of `b`'s lines named by `done` taken into `a`. */
  function TakenLines(a: Lines, b: Lines, done: set<int>): Lines {
    map n | n in a.Keys + done :: if n in done then Max(CountAt(a, n), CountAt(b, n)) else a[n]
  }

  /** One source of one fragment into what is merged so far. */
  function MergeLines(a: Lines, b: Lines): Lines {
    TakenLines(a, b, b.Keys)
  }

  function TakenSources(a: Records, b: Records, done: set<string>): Records {
    map s | s in a.Keys + done :: if s in done then MergeLines(LinesOf(a, s), LinesOf(b, s)) else a[s]
  }

  function Merge(a: Records, b: Records): Records {
    TakenSources(a, b, b.Keys)
  }

  /** `merge_fragments`. */
  function MergeAll(fragments: seq<Records>): Records {
    if fragments == [] then map[] else Merge(MergeAll(fragments[..|fragments| - 1]), fragments[|fragments| - 1])
  }

  lemma TakeNoLines(a: Lines, b: Lines)
    ensures TakenLines(a, b, {}) == a
  {
  }

  lemma TakeOneLine(a: Lines, b: Lines, done: set<int>, n: int)
    requires n !in done
    ensures TakenLines(a, b, done + {n}) == TakenLines(a, b, done)[n := Max(CountAt(TakenLines(a, b, done), n), CountAt(b, n))]
  {
  }

  function Members<T>(s: seq<T>): set<T> {
    set x | x in s
  }

  lemma MembersSnoc<T>(s: seq<T>, i: nat)
    requires i < |s| && !Repeats(s)
    ensures s[i] !in Members(s[..i]) && Members(s[..i + 1]) == Members(s[..i]) + {s[i]}
  {
    TakeSnoc(s, i);
  }

  /** The lines of `b` up to the `i`-th number taken into `a`. */
  function LinesUpTo(a: Lines, b: Lines, i: nat): Lines
    requires i <= |b|
  {
    TakenLines(a, b, Members(Numbers(b)[..i]))
  }

  lemma LinesUpToSteps(a: Lines, b: Lines, i: nat)
    requires i < |b|
    ensures var n := Numbers(b)[i]; LinesUpTo(a, b, i + 1) == LinesUpTo(a, b, i)[n := Max(CountAt(LinesUpTo(a, b, i), n), CountAt(b, n))]
  {
    MembersSnoc(Numbers(b), i);
    TakeOneLine(a, b, Members(Numbers(b)[..i]), Numbers(b)[i]);
  }

  lemma LinesUpToNone(a: Lines, b: Lines)
    ensures LinesUpTo(a, b, 0) == a
  {
    assert Members(Numbers(b)[..0]) == {};
    TakeNoLines(a, b);
  }

  lemma LinesUpToAll(a: Lines, b: Lines)
    ensures LinesUpTo(a, b, |b|) == MergeLines(a, b)
  {
    TakeAll(Numbers(b));
    assert Members(Numbers(b)) == b.Keys;
  }

  /** The first i of the lines are taken. */
  predicate LinesTaken(r: Lines, a: Lines, b: Lines, i: nat) {
    i <= |b| && r == LinesUpTo(a, b, i)
  }

  lemma LinesTakenNext(r: Lines, a: Lines, b: Lines, i: nat)
    requires i < |b| && LinesTaken(r, a, b, i)
    ensures var n := Numbers(b)[i]; LinesTaken(r[n := Max(CountAt(r, n), CountAt(b, n))], a, b, i + 1)
  {
    LinesUpToSteps(a, b, i);
  }

  method TakeLine(r: Lines, a: Lines, b: Lines, ghost i: nat, n: int) returns (r': Lines)
    requires i < |b| && LinesTaken(r, a, b, i) && n == Numbers(b)[i]
    ensures LinesTaken(r', a, b, i + 1)
  {
    LinesTakenNext(r, a, b, i);
    r' := r[n := Max(CountAt(r, n), CountAt(b, n))];
  }

  method TakeLines(destination: Lines, lines: Lines) returns (r: Lines)
    ensures r == MergeLines(destination, lines)
  {
    r := destination;
    LinesUpToNone(destination, lines);
    var numbers := Numbers(lines);
    for i := 0 to |numbers|
      invariant LinesTaken(r, destination, lines, i)
    {
      r := TakeLine(r, destination, lines, i, numbers[i]);
    }
    LinesUpToAll(destination, lines);
  }

  lemma TakeNoSources(a: Records, b: Records)
    ensures TakenSources(a, b, {}) == a
  {
  }

  lemma TakeOneSource(a: Records, b: Records, done: set<string>, s: string)
    requires s !in done
    ensures TakenSources(a, b, done + {s}) ==
            TakenSources(a, b, done)[s := MergeLines(LinesOf(TakenSources(a, b, done), s), LinesOf(b, s))]
  {
  }

  function SourcesUpTo(a: Records, b: Records, i: nat): Records
    requires i <= |b|
  {
    TakenSources(a, b, Members(Sources(b)[..i]))
  }

  lemma SourcesUpToSteps(a: Records, b: Records, i: nat)
    requires i < |b|
    ensures var s := Sources(b)[i]; SourcesUpTo(a, b, i + 1) == SourcesUpTo(a, b, i)[s := MergeLines(LinesOf(SourcesUpTo(a, b, i), s), LinesOf(b, s))]
  {
    MembersSnoc(Sources(b), i);
    TakeOneSource(a, b, Members(Sources(b)[..i]), Sources(b)[i]);
  }

  lemma SourcesUpToNone(a: Records, b: Records)
    ensures SourcesUpTo(a, b, 0) == a
  {
    assert Members(Sources(b)[..0]) == {};
    TakeNoSources(a, b);
  }

  lemma SourcesUpToAll(a: Records, b: Records)
    ensures SourcesUpTo(a, b, |b|) == Merge(a, b)
  {
    TakeAll(Sources(b));
    assert Members(Sources(b)) == b.Keys;
  }

  /** The first i of the sources are taken. */
  predicate SourcesTaken(r: Records, a: Records, b: Records, i: nat) {
    i <= |b| && r == SourcesUpTo(a, b, i)
  }

  method TakeSource(r: Records, a: Records, b: Records, ghost i: nat, source: string) returns (r': Records)
    requires i < |b| && SourcesTaken(r, a, b, i) && source == Sources(b)[i]
    ensures SourcesTaken(r', a, b, i + 1)
  {
    SourcesUpToSteps(a, b, i);
    var lines := TakeLines(LinesOf(r, source), LinesOf(b, source));
    r' := r[source := lines];
  }

  method TakeFragment(merged: Records, fragment: Records) returns (r: Records)
    ensures r == Merge(merged, fragment)
  {
    r := merged;
    SourcesUpToNone(merged, fragment);
    var sources := Sources(fragment);
    for i := 0 to |sources|
      invariant SourcesTaken(r, merged, fragment, i)
    {
      r := TakeSource(r, merged, fragment, i, sources[i]);
    }
    SourcesUpToAll(merged, fragment);
  }

  method MergeFragments(fragments: seq<Records>) returns (r: Records)
    ensures r == MergeAll(fragments)
  {
    r := map[];
    for i := 0 to |fragments|
      invariant r == MergeAll(fragments[..i])
    {
      TakeSnoc(fragments, i);
      r := TakeFragment(r, fragments[i]);
    }
    TakeAll(fragments);
  }

  // ---- what the merge means ----

  predicate Has(records: Records, source: string, number: int) {
    source in records && number in records[source]
  }

  function At(records: Records, source: string, number: int): int {
    CountAt(LinesOf(records, source), number)
  }

  lemma MergeHas(a: Records, b: Records, s: string, n: int)
    ensures Has(Merge(a, b), s, n) <==> Has(a, s, n) || Has(b, s, n)
    ensures s in Merge(a, b) <==> s in a || s in b
  {
  }

  predicate Counted(records: Records) {
    forall s :: s in records ==> NonNegative(records[s])
  }

  lemma MergeAt(a: Records, b: Records, s: string, n: int)
    requires Counted(a) && Counted(b)
    ensures At(Merge(a, b), s, n) == Max(At(a, s, n), At(b, s, n)) >= 0
  {
  }

  lemma MergeCounted(a: Records, b: Records)
    requires Counted(a) && Counted(b)
    ensures Counted(Merge(a, b))
  {
    forall s | s in Merge(a, b)
      ensures NonNegative(Merge(a, b)[s])
    {
      forall n | n in Merge(a, b)[s]
        ensures Merge(a, b)[s][n] >= 0
      {
        MergeAt(a, b, s, n);
      }
    }
  }

  /** The same sources, lines and counts: the same records. */
  lemma SameRecords(a: Records, b: Records)
    requires forall s :: s in a <==> s in b
    requires forall s, n :: Has(a, s, n) <==> Has(b, s, n)
    requires forall s, n :: Has(a, s, n) ==> At(a, s, n) == At(b, s, n)
    ensures a == b
  {
    forall s | s in a
      ensures a[s] == b[s]
    {
      forall n
        ensures n in a[s] <==> n in b[s]
        ensures n in a[s] ==> a[s][n] == b[s][n]
      {
        assert Has(a, s, n) <==> Has(b, s, n);
        assert Has(a, s, n) ==> At(a, s, n) == At(b, s, n);
      }
    }
  }

  lemma MergeCommutes(a: Records, b: Records)
    requires Counted(a) && Counted(b)
    ensures Merge(a, b) == Merge(b, a)
  {
    forall s, n
      ensures Has(Merge(a, b), s, n) <==> Has(Merge(b, a), s, n)
      ensures At(Merge(a, b), s, n) == At(Merge(b, a), s, n)
    {
      MergeHas(a, b, s, n);
      MergeHas(b, a, s, n);
      MergeAt(a, b, s, n);
      MergeAt(b, a, s, n);
    }
    SameRecords(Merge(a, b), Merge(b, a));
  }

  lemma MergeAssociates(a: Records, b: Records, c: Records)
    requires Counted(a) && Counted(b) && Counted(c)
    ensures Merge(Merge(a, b), c) == Merge(a, Merge(b, c))
  {
    MergeCounted(a, b);
    MergeCounted(b, c);
    forall s, n
      ensures Has(Merge(Merge(a, b), c), s, n) <==> Has(Merge(a, Merge(b, c)), s, n)
      ensures At(Merge(Merge(a, b), c), s, n) == At(Merge(a, Merge(b, c)), s, n)
    {
      MergeHas(a, b, s, n);
      MergeHas(Merge(a, b), c, s, n);
      MergeHas(b, c, s, n);
      MergeHas(a, Merge(b, c), s, n);
      MergeAt(a, b, s, n);
      MergeAt(Merge(a, b), c, s, n);
      MergeAt(b, c, s, n);
      MergeAt(a, Merge(b, c), s, n);
    }
    SameRecords(Merge(Merge(a, b), c), Merge(a, Merge(b, c)));
  }

  /** Merging a report with itself, or with nothing, changes nothing. */
  lemma MergeAbsorbs(a: Records)
    requires Counted(a)
    ensures Merge(a, a) == a && Merge(a, map[]) == a
  {
    forall s, n
      ensures Has(Merge(a, a), s, n) <==> Has(a, s, n)
      ensures At(Merge(a, a), s, n) == At(a, s, n)
      ensures Has(Merge(a, map[]), s, n) <==> Has(a, s, n)
      ensures At(Merge(a, map[]), s, n) == At(a, s, n)
    {
      MergeHas(a, a, s, n);
      MergeAt(a, a, s, n);
      MergeHas(a, map[], s, n);
      MergeAt(a, map[], s, n);
    }
    SameRecords(Merge(a, a), a);
    SameRecords(Merge(a, map[]), a);
  }

  predicate AllCounted(fragments: seq<Records>) {
    forall f :: f in fragments ==> Counted(f)
  }

  predicate SomeHas(fragments: seq<Records>, s: string, n: int) {
    exists f :: f in fragments && Has(f, s, n)
  }

  predicate SomeNames(fragments: seq<Records>, s: string) {
    exists f :: f in fragments && s in f
  }

  /** `best` is the largest count any fragment has for the line, or nothing when none counts it. */
  predicate IsBest(fragments: seq<Records>, s: string, n: int, best: int) {
    && best >= 0 && (forall f :: f in fragments ==> At(f, s, n) <= best)
    && (best > 0 ==> exists f :: f in fragments && At(f, s, n) == best)
  }

  lemma BestMore(init: seq<Records>, last: Records, s: string, n: int, best: int)
    requires IsBest(init, s, n, best)
    ensures IsBest(init + [last], s, n, Max(best, At(last, s, n)))
  {
    var all := init + [last];
    if best > 0 && best >= At(last, s, n) {
      var f :| f in init && At(f, s, n) == best;
      assert f in all;
    }
    assert last in all;
  }

  lemma SomeMore(init: seq<Records>, last: Records, s: string, n: int)
    ensures SomeHas(init + [last], s, n) <==> SomeHas(init, s, n) || Has(last, s, n)
    ensures SomeNames(init + [last], s) <==> SomeNames(init, s) || s in last
  {
    var all := init + [last];
    if SomeHas(init, s, n) {
      var f :| f in init && Has(f, s, n);
      assert f in all;
    }
    if SomeNames(init, s) {
      var f :| f in init && s in f;
      assert f in all;
    }
    assert last in all;
  }

  /** The merge, line by line: exactly the lines some fragment has, each with the largest count. */
  lemma {:induction false} MergedIsBest(fragments: seq<Records>, s: string, n: int)
    requires AllCounted(fragments)
    ensures Counted(MergeAll(fragments))
    ensures Has(MergeAll(fragments), s, n) <==> SomeHas(fragments, s, n)
    ensures s in MergeAll(fragments) <==> SomeNames(fragments, s)
    ensures IsBest(fragments, s, n, At(MergeAll(fragments), s, n))
    decreases |fragments|
  {
    if fragments == [] {
    } else {
      var init, last := fragments[..|fragments| - 1], fragments[|fragments| - 1];
      assert fragments == init + [last];
      MergedIsBest(init, s, n);
      assert last in fragments;
      MergeCounted(MergeAll(init), last);
      MergeHas(MergeAll(init), last, s, n);
      MergeAt(MergeAll(init), last, s, n);
      BestMore(init, last, s, n, At(MergeAll(init), s, n));
      SomeMore(init, last, s, n);
    }
  }

  /** A line is covered in the merge exactly when some fragment covers it. */
  lemma CoveredIff(fragments: seq<Records>, s: string, n: int)
    requires AllCounted(fragments)
    ensures At(MergeAll(fragments), s, n) > 0 <==> exists f :: f in fragments && At(f, s, n) > 0
  {
    MergedIsBest(fragments, s, n);
  }

  /** Only which fragments there are matters: not their order, nor how often each is given. */
  lemma MergeForgetsOrder(fragments: seq<Records>, others: seq<Records>)
    requires AllCounted(fragments) && forall f :: f in fragments <==> f in others
    ensures MergeAll(fragments) == MergeAll(others)
  {
    var a, b := MergeAll(fragments), MergeAll(others);
    forall s, n
      ensures s in a <==> s in b
      ensures Has(a, s, n) <==> Has(b, s, n)
      ensures At(a, s, n) == At(b, s, n)
    {
      MergedIsBest(fragments, s, n);
      MergedIsBest(others, s, n);
      SameSome(fragments, others, s, n);
    }
    forall s
      ensures s in a <==> s in b
    {
      assert Has(a, s, 0) <==> Has(b, s, 0);
    }
    SameRecords(a, b);
  }

  lemma SameSome(fragments: seq<Records>, others: seq<Records>, s: string, n: int)
    requires forall f :: f in fragments <==> f in others
    ensures SomeHas(fragments, s, n) <==> SomeHas(others, s, n)
    ensures SomeNames(fragments, s) <==> SomeNames(others, s)
  {
  }
}
