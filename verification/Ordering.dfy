/** Orders on sequences, and the stable sort the scripts rely on. */
module Ordering {

  // ---- dictionary order ----

  /** `a` comes no later than `b` when elements are compared by rank from the left. */
  predicate LexLe<T(==)>(a: seq<T>, b: seq<T>, rank: T -> int) {
    || a == []
    || (b != [] && (rank(a[0]) < rank(b[0]) || (a[0] == b[0] && LexLe(a[1..], b[1..], rank))))
  }

  ghost predicate Injective<T(!new)>(rank: T -> int) {
    forall x, y :: rank(x) == rank(y) ==> x == y
  }

  lemma {:induction false} LexTotal<T(!new)>(a: seq<T>, b: seq<T>, rank: T -> int)
    requires Injective(rank)
    ensures LexLe(a, b, rank) || LexLe(b, a, rank)
  {
    if a != [] && b != [] && a[0] == b[0] { LexTotal(a[1..], b[1..], rank); }
  }

  lemma {:induction false} LexAntisymmetric<T>(a: seq<T>, b: seq<T>, rank: T -> int)
    requires LexLe(a, b, rank) && LexLe(b, a, rank)
    ensures a == b
  {
    if a != [] && b != [] {
      LexAntisymmetric(a[1..], b[1..], rank);
      assert a == [a[0]] + a[1..] && b == [b[0]] + b[1..];
    }
  }

  lemma {:induction false} LexTransitive<T>(a: seq<T>, b: seq<T>, c: seq<T>, rank: T -> int)
    requires LexLe(a, b, rank) && LexLe(b, c, rank)
    ensures LexLe(a, c, rank)
  {
    if a != [] && b != [] && c != [] && a[0] == b[0] == c[0] { LexTransitive(a[1..], b[1..], c[1..], rank); }
  }

  function Code(c: char): int { c as int }

  /** How the scripts compare text: by code point. */
  predicate TextLe(a: string, b: string) {
    LexLe(a, b, Code)
  }

  lemma CodeInjective()
    ensures Injective(Code)
  {
    forall x: char, y: char | Code(x) == Code(y)
      ensures x == y
    {
      assert (x as int) as char == x && (y as int) as char == y;
    }
  }

  lemma TextOrders()
    ensures Orders(TextLe)
  {
    CodeInjective();
    forall a: string, b: string
      ensures TextLe(a, b) || TextLe(b, a)
      ensures TextLe(a, b) && TextLe(b, a) ==> a == b
    {
      LexTotal(a, b, Code);
      if TextLe(a, b) && TextLe(b, a) { LexAntisymmetric(a, b, Code); }
    }
    forall a: string, b: string, c: string | TextLe(a, b) && TextLe(b, c)
      ensures TextLe(a, c)
    {
      LexTransitive(a, b, c, Code);
    }
  }

  // ---- sorting ----

  ghost predicate Ranks<T(!new)>(le: (T, T) -> bool) {
    && (forall x, y :: le(x, y) || le(y, x))
    && (forall x, y, z :: le(x, y) && le(y, z) ==> le(x, z))
  }

  ghost predicate Orders<T(!new)>(le: (T, T) -> bool) {
    Ranks(le) && forall x, y :: le(x, y) && le(y, x) ==> x == y
  }

  predicate Sorted<T>(s: seq<T>, le: (T, T) -> bool) {
    forall i, j :: 0 <= i < j < |s| ==> le(s[i], s[j])
  }

  predicate Repeats<T(==)>(s: seq<T>) {
    exists i, j :: 0 <= i < j < |s| && s[i] == s[j]
  }

  function Insert<T>(s: seq<T>, x: T, le: (T, T) -> bool): seq<T> {
    if s == [] || !le(s[0], x) then [x] + s else [s[0]] + Insert(s[1..], x, le)
  }

  /** `sorted`: stable, later elements go after the equals already placed. */
  function Sort<T>(s: seq<T>, le: (T, T) -> bool): seq<T> {
    if s == [] then [] else Insert(Sort(s[..|s| - 1], le), s[|s| - 1], le)
  }

  lemma {:induction false} InsertCounts<T>(s: seq<T>, x: T, le: (T, T) -> bool)
    ensures multiset(Insert(s, x, le)) == multiset(s) + multiset{x}
    ensures forall y :: y in Insert(s, x, le) <==> y in s || y == x
  {
    if s != [] && le(s[0], x) {
      InsertCounts(s[1..], x, le);
      assert s == [s[0]] + s[1..];
    }
  }

  lemma {:induction false} InsertSorts<T(!new)>(s: seq<T>, x: T, le: (T, T) -> bool)
    requires Ranks(le) && Sorted(s, le)
    ensures Sorted(Insert(s, x, le), le)
  {
    if s != [] && le(s[0], x) {
      var rest := Insert(s[1..], x, le);
      InsertSorts(s[1..], x, le);
      InsertCounts(s[1..], x, le);
      forall i | 0 <= i < |rest|
        ensures le(s[0], rest[i])
      {
        assert rest[i] in rest;
        assert s == [s[0]] + s[1..];
      }
    }
  }

  /** The result is sorted and has the same elements, as often. */
  lemma {:induction false} SortSorts<T(!new)>(s: seq<T>, le: (T, T) -> bool)
    requires Ranks(le)
    ensures Sorted(Sort(s, le), le) && multiset(Sort(s, le)) == multiset(s)
    ensures |Sort(s, le)| == |s| && forall x :: x in Sort(s, le) <==> x in s
    decreases |s|
  {
    if s != [] {
      SortSorts(s[..|s| - 1], le);
      InsertSorts(Sort(s[..|s| - 1], le), s[|s| - 1], le);
      InsertCounts(Sort(s[..|s| - 1], le), s[|s| - 1], le);
      assert s == s[..|s| - 1] + [s[|s| - 1]];
    }
    assert |multiset(Sort(s, le))| == |Sort(s, le)|;
    forall x
      ensures x in Sort(s, le) <==> x in s
    {
      assert x in s <==> x in multiset(s);
    }
  }

  /** Two elements of `s` that rank equal are the same element. */
  ghost predicate Tells<T(!new)>(s: seq<T>, le: (T, T) -> bool) {
    forall x, y :: x in s && y in s && le(x, y) && le(y, x) ==> x == y
  }

  lemma LeastFirst<T(!new)>(a: seq<T>, b: seq<T>, le: (T, T) -> bool)
    requires a != [] && b != [] && Sorted(a, le) && b[0] in a
    ensures le(a[0], b[0]) || a[0] == b[0]
  {
  }

  lemma TailCounts<T>(s: seq<T>)
    requires s != []
    ensures multiset(s[1..]) == multiset(s) - multiset{s[0]}
  {
    assert s == [s[0]] + s[1..];
  }

  lemma SameCount<T>(a: seq<T>, b: seq<T>)
    requires multiset(a) == multiset(b)
    ensures |a| == |b| && forall x :: x in a <==> x in b
  {
    assert |multiset(a)| == |a| && |multiset(b)| == |b|;
    forall x
      ensures x in a <==> x in b
    {
      assert x in a <==> x in multiset(a);
      assert x in b <==> x in multiset(b);
    }
  }

  /** Sorted sequences of the same elements are the same sequence. */
  lemma {:induction false} SortedUnique<T(!new)>(a: seq<T>, b: seq<T>, le: (T, T) -> bool)
    requires Sorted(a, le) && Sorted(b, le) && multiset(a) == multiset(b) && Tells(a, le)
    ensures a == b
  {
    SameCount(a, b);
    if a != [] {
      assert a[0] == b[0] by {
        assert a[0] in a && b[0] in b;
        LeastFirst(a, b, le);
        LeastFirst(b, a, le);
      }
      TailCounts(a);
      TailCounts(b);
      assert Tells(a[1..], le) by {
        assert forall x :: x in a[1..] ==> x in a;
      }
      SortedUnique(a[1..], b[1..], le);
      assert a == [a[0]] + a[1..] && b == [b[0]] + b[1..];
    }
  }

  /** Sorting forgets the order its input came in. */
  lemma SortPermutes<T(!new)>(a: seq<T>, b: seq<T>, le: (T, T) -> bool)
    requires Ranks(le) && multiset(a) == multiset(b) && Tells(a, le)
    ensures Sort(a, le) == Sort(b, le)
  {
    SortSorts(a, le);
    SortSorts(b, le);
    SortedUnique(Sort(a, le), Sort(b, le), le);
  }

  lemma NoRepeatCounts<T>(s: seq<T>, x: T)
    requires !Repeats(s)
    ensures multiset(s)[x] == if x in s then 1 else 0
    decreases |s|
  {
    if s != [] {
      var init, last := s[..|s| - 1], s[|s| - 1];
      assert s == init + [last];
      assert !Repeats(init) by {
        assert forall i :: 0 <= i < |init| ==> init[i] == s[i];
      }
      NoRepeatCounts(init, x);
      assert last !in init;
    }
  }

  lemma TwiceCounts<T>(s: seq<T>, i: nat, j: nat)
    requires i < j < |s| && s[i] == s[j]
    ensures multiset(s)[s[i]] >= 2
  {
    assert s == s[..j] + s[j..];
    assert s[..j][i] == s[i] && s[j..][0] == s[j];
    assert s[i] in multiset(s[..j]) && s[j] in multiset(s[j..]);
  }

  /** Without repeats, having the same members is having the same elements as often. */
  lemma SameMembers<T(!new)>(a: seq<T>, b: seq<T>)
    requires !Repeats(a) && !Repeats(b) && forall x :: x in a <==> x in b
    ensures multiset(a) == multiset(b)
  {
    forall x
      ensures multiset(a)[x] == multiset(b)[x]
    {
      NoRepeatCounts(a, x);
      NoRepeatCounts(b, x);
    }
  }

  // ---- the elements of a set, in order ----

  lemma {:induction false} LeastExists<T(!new)>(s: set<T>, le: (T, T) -> bool) returns (least: T)
    requires s != {} && Ranks(le)
    ensures least in s && forall y :: y in s ==> le(least, y)
    decreases |s|
  {
    var x :| x in s;
    if s == {x} {
      least := x;
    } else {
      var other := LeastExists(s - {x}, le);
      least := if le(x, other) then x else other;
      forall y | y in s
        ensures le(least, y)
      {
        assert y == x || y in s - {x};
      }
    }
  }

  /** `sorted` over a set. */
  function SortedSet<T(!new)>(s: set<T>, le: (T, T) -> bool): (r: seq<T>)
    requires Orders(le)
    ensures Sorted(r, le) && !Repeats(r) && |r| == |s| && forall x :: x in r <==> x in s
    decreases |s|
  {
    if s == {} then []
    else
      assert exists x :: x in s && forall y :: y in s ==> le(x, y) by {
        var least := LeastExists(s, le);
      }
      var x :| x in s && forall y :: y in s ==> le(x, y);
      var rest := SortedSet(s - {x}, le);
      var r := [x] + rest;
      assert Sorted(r, le) && !Repeats(r) by {
        assert forall i :: 0 <= i < |rest| ==> rest[i] in rest;
      }
      r
  }
}
