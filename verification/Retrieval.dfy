/** BM25 over unique rows and dense ranking over a vector cache; exact reals stand for floats. */
module Retrieval {
  import opened Prelude
  import opened Ordering
  import opened Ranking
  import Contracts

  datatype Source = Source(ref: string, text: string, fingerprint: string)

  /** Tokeniser and logarithm, taken as given. */
  datatype Lexer = Lexer(tokens: string -> seq<string>, log1p: real -> real)

  // ---- sums that forget their order ----

  function Sum<T>(s: seq<T>, f: T -> nat): nat {
    if s == [] then 0 else Sum(s[..|s| - 1], f) + f(s[|s| - 1])
  }

  lemma {:induction false} SumWithout<T>(s: seq<T>, f: T -> nat, i: nat)
    requires i < |s|
    ensures Sum(s, f) == Sum(s[..i] + s[i + 1..], f) + f(s[i])
    decreases |s|
  {
    var init, last := s[..|s| - 1], s[|s| - 1];
    if i < |s| - 1 {
      SumWithout(init, f, i);
      var less := s[..i] + s[i + 1..];
      assert less[..|less| - 1] == init[..i] + init[i + 1..] && less[|less| - 1] == last;
    } else {
      assert s[..i] + s[i + 1..] == init;
    }
  }

  lemma WithoutCounts<T>(s: seq<T>, i: nat)
    requires i < |s|
    ensures multiset(s[..i] + s[i + 1..]) == multiset(s) - multiset{s[i]}
  {
    assert s == s[..i] + [s[i]] + s[i + 1..];
  }

  lemma {:induction false} SumPermutes<T>(a: seq<T>, b: seq<T>, f: T -> nat)
    requires multiset(a) == multiset(b)
    ensures Sum(a, f) == Sum(b, f)
    decreases |a|
  {
    SameCount(a, b);
    if a != [] {
      var init, x := a[..|a| - 1], a[|a| - 1];
      assert x in b;
      var i :| 0 <= i < |b| && b[i] == x;
      SumWithout(b, f, i);
      WithoutCounts(a, |a| - 1);
      WithoutCounts(b, i);
      assert a[..|a| - 1] + a[|a|..] == init;
      SumPermutes(init, b[..i] + b[i + 1..], f);
    }
  }

  // ---- BM25 ----

  function KeyOf(s: Source): Item { Item(s.ref, s.fingerprint) }

  /** `unique`: its keys, in the order they were first met. */
  function UniqueKeys(sources: seq<Source>): seq<Item> {
    if sources == [] then []
    else
      var init, key := UniqueKeys(sources[..|sources| - 1]), KeyOf(sources[|sources| - 1]);
      if key in init then init else init + [key]
  }

  /** And their texts; of rows with one key the last counts. */
  function Texts(sources: seq<Source>): map<Item, string> {
    if sources == [] then map[]
    else Texts(sources[..|sources| - 1])[KeyOf(sources[|sources| - 1]) := sources[|sources| - 1].text]
  }

  method Unique(sources: seq<Source>) returns (keys: seq<Item>, texts: map<Item, string>)
    ensures keys == UniqueKeys(sources) && texts == Texts(sources)
  {
    keys, texts := [], map[];
    for i := 0 to |sources|
      invariant keys == UniqueKeys(sources[..i]) && texts == Texts(sources[..i])
    {
      TakeSnoc(sources, i);
      var key := KeyOf(sources[i]);
      keys := if key in keys then keys else keys + [key];
      texts := texts[key := sources[i].text];
    }
    TakeAll(sources);
  }

  lemma {:induction false} UniqueKeysAre(sources: seq<Source>)
    ensures !Repeats(UniqueKeys(sources)) && forall k :: k in UniqueKeys(sources) <==> exists s :: s in sources && KeyOf(s) == k
    decreases |sources|
  {
    if sources == [] {
    } else {
      var init, last := sources[..|sources| - 1], sources[|sources| - 1];
      assert sources == init + [last];
      UniqueKeysAre(init);
      forall k | k in UniqueKeys(sources)
        ensures exists s :: s in sources && KeyOf(s) == k
      {
        if k in UniqueKeys(init) {
          var s :| s in init && KeyOf(s) == k;
          assert s in sources;
        } else {
          assert last in sources;
        }
      }
    }
  }

  lemma {:induction false} TextsAre(sources: seq<Source>)
    ensures forall k :: k in Texts(sources) <==> exists s :: s in sources && KeyOf(s) == k
    ensures forall k :: k in Texts(sources) ==> exists s :: s in sources && KeyOf(s) == k && s.text == Texts(sources)[k]
    decreases |sources|
  {
    if sources == [] {
    } else {
      var init, last := sources[..|sources| - 1], sources[|sources| - 1];
      assert sources == init + [last];
      TextsAre(init);
      forall k | k in Texts(sources)
        ensures exists s :: s in sources && KeyOf(s) == k && s.text == Texts(sources)[k]
      {
        if k == KeyOf(last) {
          assert last in sources;
        } else {
          assert k in Texts(init);
          var s :| s in init && KeyOf(s) == k && s.text == Texts(init)[k];
          assert s in sources;
        }
      }
    }
  }

  /** One fingerprint, one text: rows of one key agree. */
  ghost predicate Fingerprinted(sources: seq<Source>) {
    forall s, t :: s in sources && t in sources && s.fingerprint == t.fingerprint ==> s.text == t.text
  }

  /** The same rows, however often and in whatever order, are the same corpus. */
  lemma CorpusForgetsOrder(sources: seq<Source>, others: seq<Source>)
    requires Fingerprinted(sources) && forall s :: s in sources <==> s in others
    ensures multiset(UniqueKeys(sources)) == multiset(UniqueKeys(others)) && Texts(sources) == Texts(others)
  {
    UniqueKeysAre(sources);
    UniqueKeysAre(others);
    SameMembers(UniqueKeys(sources), UniqueKeys(others));
    TextsAre(sources);
    TextsAre(others);
    forall k | k in Texts(sources)
      ensures Texts(sources)[k] == Texts(others)[k]
    {
      var s :| s in sources && KeyOf(s) == k && s.text == Texts(sources)[k];
      var t :| t in others && KeyOf(t) == k && t.text == Texts(others)[k];
      assert t in sources;
    }
  }

  /** The unique rows, in the order the dictionary holds them. */
  datatype Corpus = Corpus(keys: seq<Item>, texts: map<Item, string>, lexer: Lexer)

  function TokensOf(c: Corpus, key: Item): seq<string> {
    if key in c.texts then c.lexer.tokens(c.texts[key]) else []
  }

  function Total(c: Corpus): nat {
    Sum(c.keys, (key: Item) => |TokensOf(c, key)|)
  }

  /** How many rows hold the word. */
  function Df(c: Corpus, word: string): nat {
    Sum(c.keys, (key: Item) => if word in TokensOf(c, key) then 1 else 0)
  }

  const K1: real := 1.5
  const B: real := 0.75

  /** One query word's part of one row's score. */
  function Part(word: string, key: Item, c: Corpus): real
    requires Total(c) > 0
  {
    PartOf(multiset(TokensOf(c, key))[word], |TokensOf(c, key)|, |c.keys|, Total(c), Df(c, word), c.lexer)
  }

  /** Term count, row length, rows, all tokens, rows with the word. */
  function PartOf(tf: nat, length: nat, rows: nat, total: nat, df: nat, lexer: Lexer): real
    requires total > 0
  {
    if tf == 0 then 0.0
    else
      NonNegativeRatio(length as real * rows as real, total as real);
      var weight := tf as real + K1 * (1.0 - B + B * (length as real * rows as real / total as real));
      var idf := lexer.log1p((rows as real - df as real + 0.5) / (df as real + 0.5));
      idf * tf as real * (K1 + 1.0) / weight
  }

  lemma NonNegativeRatio(a: real, b: real)
    requires a >= 0.0 && b > 0.0
    ensures a / b >= 0.0
  {
  }

  function RowScore(query: seq<string>, key: Item, c: Corpus): real
    requires Total(c) > 0
  {
    if query == [] then 0.0 else RowScore(query[..|query| - 1], key, c) + Part(query[|query| - 1], key, c)
  }

  /** The different words of the question, sorted. */
  function Query(question: string, lexer: Lexer): seq<string> {
    TextOrders();
    SortedSet((set w | w in lexer.tokens(question)), TextLe)
  }

  datatype ScoredItem = ScoredItem(score: real, item: Item)

  predicate ItemLe(a: Item, b: Item) {
    if a.ref == b.ref then TextLe(a.fingerprint, b.fingerprint) else TextLe(a.ref, b.ref)
  }

  predicate BestLe(a: ScoredItem, b: ScoredItem) {
    a.score > b.score || (a.score == b.score && ItemLe(a.item, b.item))
  }

  lemma BestOrders()
    ensures Orders(BestLe)
  {
    TextOrders();
  }

  /** The rows with a positive score. */
  function Positive(keys: seq<Item>, query: seq<string>, c: Corpus): seq<ScoredItem>
    requires Total(c) > 0
  {
    if keys == [] then []
    else
      var init, score := Positive(keys[..|keys| - 1], query, c), RowScore(query, keys[|keys| - 1], c);
      if score > 0.0 then init + [ScoredItem(score, keys[|keys| - 1])] else init
  }

  function Items(scored: seq<ScoredItem>): (r: seq<Item>)
    ensures |r| == |scored| && forall i :: 0 <= i < |r| ==> r[i] == scored[i].item
  {
    seq(|scored|, i requires 0 <= i < |scored| => scored[i].item)
  }

  function Bm25Of(question: string, c: Corpus): seq<Item> {
    if Total(c) == 0 then [] else Items(Sort(Positive(c.keys, Query(question, c.lexer), c), BestLe))
  }

  function CorpusOf(sources: seq<Source>, lexer: Lexer): Corpus {
    Corpus(UniqueKeys(sources), Texts(sources), lexer)
  }

  method RowScoreOf(query: seq<string>, key: Item, c: Corpus) returns (score: real)
    requires Total(c) > 0
    ensures score == RowScore(query, key, c)
  {
    score := 0.0;
    for i := 0 to |query|
      invariant score == RowScore(query[..i], key, c)
    {
      TakeSnoc(query, i);
      score := score + Part(query[i], key, c);
    }
    TakeAll(query);
  }

  /** `bm25`: repeated transport rows are one row of the corpus. */
  method Bm25(question: string, sources: seq<Source>, lexer: Lexer) returns (r: seq<Item>)
    ensures r == Bm25Of(question, CorpusOf(sources, lexer))
  {
    var keys, texts := Unique(sources);
    var c := Corpus(keys, texts, lexer);
    if Total(c) == 0 {
      return [];
    }
    var query := Query(question, lexer);
    var scored: seq<ScoredItem> := [];
    for i := 0 to |keys|
      invariant scored == Positive(keys[..i], query, c)
    {
      TakeSnoc(keys, i);
      var score := RowScoreOf(query, keys[i], c);
      if score > 0.0 {
        scored := scored + [ScoredItem(score, keys[i])];
      }
    }
    TakeAll(keys);
    r := Items(Sort(scored, BestLe));
  }

  /** The same rows in another order. */
  ghost predicate Reordered(c: Corpus, d: Corpus) {
    c.texts == d.texts && c.lexer == d.lexer && multiset(c.keys) == multiset(d.keys) && !Repeats(c.keys) && !Repeats(d.keys)
  }

  lemma {:induction false} SumSame<T>(s: seq<T>, f: T -> nat, g: T -> nat)
    requires forall x :: x in s ==> f(x) == g(x)
    ensures Sum(s, f) == Sum(s, g)
    decreases |s|
  {
    if s == [] {
    } else {
      assert s[|s| - 1] in s;
      SumSame(s[..|s| - 1], f, g);
    }
  }

  lemma TotalsSame(c: Corpus, d: Corpus)
    requires Reordered(c, d)
    ensures Total(c) == Total(d) && |c.keys| == |d.keys|
  {
    var f, g := (key: Item) => |TokensOf(c, key)|, (key: Item) => |TokensOf(d, key)|;
    SumPermutes(c.keys, d.keys, f);
    SumSame(d.keys, f, g);
    SameCount(c.keys, d.keys);
  }

  lemma DfSame(c: Corpus, d: Corpus, word: string)
    requires Reordered(c, d)
    ensures Df(c, word) == Df(d, word)
  {
    var f := (key: Item) => if word in TokensOf(c, key) then 1 else 0;
    var g := (key: Item) => if word in TokensOf(d, key) then 1 else 0;
    SumPermutes(c.keys, d.keys, f);
    SumSame(d.keys, f, g);
  }

  lemma {:induction false} RowScoreSame(query: seq<string>, key: Item, c: Corpus, d: Corpus)
    requires Reordered(c, d) && Total(c) > 0 && Total(d) > 0
    ensures RowScore(query, key, c) == RowScore(query, key, d)
    decreases |query|
  {
    if query == [] {
    } else {
      RowScoreSame(query[..|query| - 1], key, c, d);
      TotalsSame(c, d);
      DfSame(c, d, query[|query| - 1]);
    }
  }

  lemma {:induction false} PositiveAre(keys: seq<Item>, query: seq<string>, c: Corpus)
    requires Total(c) > 0 && !Repeats(keys)
    ensures forall x :: x in Positive(keys, query, c) <==>
              x.item in keys && x.score == RowScore(query, x.item, c) && x.score > 0.0
    ensures !Repeats(Positive(keys, query, c))
    decreases |keys|
  {
    if keys == [] {
    } else {
      var init, last := keys[..|keys| - 1], keys[|keys| - 1];
      assert keys == init + [last] && forall i :: 0 <= i < |init| ==> init[i] == keys[i];
      PositiveAre(init, query, c);
      assert last !in init;
      var before := Positive(init, query, c);
      forall i | 0 <= i < |before|
        ensures before[i].item != last
      {
        assert before[i] in before;
      }
    }
  }

  lemma ReorderedScoresSame(question: string, c: Corpus, d: Corpus)
    requires Reordered(c, d)
    ensures Bm25Of(question, c) == Bm25Of(question, d)
  {
    TotalsSame(c, d);
    if Total(c) > 0 {
      var query := Query(question, c.lexer);
      PositiveAre(c.keys, query, c);
      PositiveAre(d.keys, query, d);
      SameCount(c.keys, d.keys);
      var left, right := Positive(c.keys, query, c), Positive(d.keys, query, d);
      forall x
        ensures x in left <==> x in right
      {
        RowScoreSame(query, x.item, c, d);
      }
      SameMembers(left, right);
      BestOrders();
      SortPermutes(left, right, BestLe);
    }
  }

  /** BM25 is unchanged by permuting or repeating rows. */
  lemma Bm25ForgetsOrder(question: string, sources: seq<Source>, others: seq<Source>, lexer: Lexer)
    requires Fingerprinted(sources) && forall s :: s in sources <==> s in others
    ensures Bm25Of(question, CorpusOf(sources, lexer)) == Bm25Of(question, CorpusOf(others, lexer))
  {
    CorpusForgetsOrder(sources, others);
    UniqueKeysAre(sources);
    UniqueKeysAre(others);
    ReorderedScoresSame(question, CorpusOf(sources, lexer), CorpusOf(others, lexer));
  }

  // ---- dense ranking over a cache ----

  type Vector = seq<real>

  datatype Policy = Dense | Fusion | Separate

  /** The encoder, text by text, and the fingerprint of a text. */
  datatype Encoder = Encoder(encode: string -> Vector, query: string -> Vector, dot: (Vector, Vector) -> real, sha: string -> string)

  datatype Response = Response(candidates: seq<Item>, lexical: Option<seq<Item>>)

  /** No two of these texts have the same fingerprint. */
  ghost predicate Told(e: Encoder, texts: set<string>) {
    forall x, y :: x in texts && y in texts && e.sha(x) == e.sha(y) ==> x == y
  }

  function TextsOf(sources: seq<Source>): set<string> {
    set s | s in sources :: s.text
  }

  /** The cache holds the vectors the encoder gives these texts, and nothing else. */
  ghost predicate CacheRight(cache: map<string, Vector>, e: Encoder, texts: set<string>) {
    && (forall text :: text in texts ==> e.sha(text) in cache && cache[e.sha(text)] == e.encode(text))
    && (forall fp :: fp in cache ==> exists text :: text in texts && e.sha(text) == fp)
  }

  lemma CachedIsRight(cache: map<string, Vector>, e: Encoder, texts: set<string>, text: string)
    requires CacheRight(cache, e, texts) && Told(e, texts + {text}) && e.sha(text) in cache
    ensures text in texts && cache[e.sha(text)] == e.encode(text)
  {
    var known :| known in texts && e.sha(known) == e.sha(text);
    assert known in texts + {text} && text in texts + {text};
  }

  lemma CacheMore(cache: map<string, Vector>, e: Encoder, texts: set<string>, text: string)
    requires CacheRight(cache, e, texts) && e.sha(text) !in cache
    ensures CacheRight(cache[e.sha(text) := e.encode(text)], e, texts + {text})
  {
    var more := cache[e.sha(text) := e.encode(text)];
    forall fp | fp in more
      ensures exists t :: t in texts + {text} && e.sha(t) == fp
    {
      if fp in cache {
        var t :| t in texts && e.sha(t) == fp;
        assert t in texts + {text};
      } else {
        assert text in texts + {text};
      }
    }
  }

  lemma TextsSnoc(sources: seq<Source>, i: nat)
    requires i < |sources|
    ensures TextsOf(sources[..i + 1]) == TextsOf(sources[..i]) + {sources[i].text} <= TextsOf(sources)
  {
    TakeSnoc(sources, i);
  }

  lemma ToldFewer(e: Encoder, texts: set<string>, fewer: set<string>)
    requires Told(e, texts) && fewer <= texts
    ensures Told(e, fewer)
  {
  }

  predicate SourcesOk(sources: seq<Source>, e: Encoder) {
    forall i :: 0 <= i < |sources| ==> SourceOk(sources[i], e)
  }

  predicate SourceOk(s: Source, e: Encoder) {
    s.ref != "" && e.sha(s.text) == s.fingerprint
  }

  function Candidate(s: Source, question: string, e: Encoder): ScoredItem {
    ScoredItem(e.dot(e.encode(s.text), e.query(question)), KeyOf(s))
  }

  function Candidates(sources: seq<Source>, question: string, e: Encoder): (r: seq<ScoredItem>)
    ensures |r| == |sources| && forall i :: 0 <= i < |r| ==> r[i] == Candidate(sources[i], question, e)
  {
    seq(|sources|, i requires 0 <= i < |sources| => Candidate(sources[i], question, e))
  }

  /** Every source scored by its own vector, best first, each ref once. */
  function DenseOrder(sources: seq<Source>, question: string, e: Encoder): seq<Item> {
    FirstRefs(Items(Sort(Candidates(sources, question, e), BestLe)))
  }

  /** The response, with no cache in sight. */
  function Answer(question: string, sources: seq<Source>, topK: nat, policy: Policy, e: Encoder, lexer: Lexer): Response {
    var dense := TakeAtMost(DenseOrder(sources, question, e), if policy.Fusion? then WINDOW else topK);
    var lexical := Bm25Of(question, CorpusOf(sources, lexer));
    match policy
    case Dense => Response(dense, None)
    case Fusion => Response(Fused([dense, lexical], topK), None)
    case Separate => Response(dense, Some(TakeAtMost(FirstRefs(lexical), topK)))
  }

  /** What was cached stays as it was. */
  predicate CacheKept(before: map<string, Vector>, after: map<string, Vector>) {
    forall fp :: fp in before ==> fp in after && after[fp] == before[fp]
  }

  lemma CacheKeptLonger(a: map<string, Vector>, b: map<string, Vector>, c: map<string, Vector>)
    requires CacheKept(a, b) && CacheKept(b, c)
    ensures CacheKept(a, c)
  {
  }

  /** Each of the first n sources has its own text's vector under its fingerprint. */
  ghost predicate VectorsFor(vectors: map<string, Vector>, sources: seq<Source>, n: nat, e: Encoder) {
    && n <= |sources|
    && forall k :: 0 <= k < n ==> sources[k].fingerprint in vectors && vectors[sources[k].fingerprint] == e.encode(sources[k].text)
  }

  lemma VectorsMore(vectors: map<string, Vector>, sources: seq<Source>, i: nat, e: Encoder)
    requires i < |sources| && VectorsFor(vectors, sources, i, e) && SourcesOk(sources, e) && Told(e, TextsOf(sources))
    ensures VectorsFor(vectors[sources[i].fingerprint := e.encode(sources[i].text)], sources, i + 1, e)
  {
    forall k | 0 <= k < i && sources[k].fingerprint == sources[i].fingerprint
      ensures sources[k].text == sources[i].text
    {
      assert SourceOk(sources[k], e) && SourceOk(sources[i], e);
      assert sources[k].text in TextsOf(sources) && sources[i].text in TextsOf(sources);
    }
  }

  /** The scoring loop of `rank`. */
  method ScoreAll(vectors: map<string, Vector>, sources: seq<Source>, question: string, e: Encoder)
    returns (candidates: seq<ScoredItem>)
    requires VectorsFor(vectors, sources, |sources|, e)
    ensures candidates == Candidates(sources, question, e)
  {
    var query := e.query(question);
    candidates := [];
    for i := 0 to |sources|
      invariant |candidates| == i && forall k :: 0 <= k < i ==> candidates[k] == Candidate(sources[k], question, e)
    {
      candidates := candidates + [ScoredItem(e.dot(vectors[sources[i].fingerprint], query), KeyOf(sources[i]))];
    }
  }

  class Retriever {
    const e: Encoder
    const lexer: Lexer
    const policy: Policy
    const revision: string
    var cache: map<string, Vector>
    /** The texts the cached vectors are of. */
    ghost var cached: set<string>

    constructor (e: Encoder, lexer: Lexer, policy: Policy, revision: string, cache: map<string, Vector>, ghost cached: set<string>)
      ensures this.e == e && this.lexer == lexer && this.policy == policy && this.revision == revision && this.cache == cache
      ensures this.cached == cached
    {
      this.e, this.lexer, this.policy, this.revision, this.cache := e, lexer, policy, revision, cache;
      this.cached := cached;
    }

    ghost predicate Valid()
      reads this
    {
      CacheRight(cache, e, cached)
    }

    /** The vector of one text: the cached one as it is, or a missing one encoded and cached. */
    method VectorOf(s: Source) returns (vector: Vector)
      requires Valid() && SourceOk(s, e) && Told(e, cached + {s.text})
      modifies this
      ensures Valid() && cached == old(cached) + {s.text} && vector == e.encode(s.text)
      ensures s.fingerprint in cache && CacheKept(old(cache), cache)
    {
      if s.fingerprint in cache {
        CachedIsRight(cache, e, cached, s.text);
        assert cached + {s.text} == cached;
      } else {
        CacheMore(cache, e, cached, s.text);
        cache, cached := cache[s.fingerprint := e.encode(s.text)], cached + {s.text};
      }
      vector := cache[s.fingerprint];
    }

    /** The vectors of every text: cached ones as they are, the missing encoded and cached. */
    method Vectors(sources: seq<Source>) returns (vectors: map<string, Vector>)
      requires Valid() && SourcesOk(sources, e) && Told(e, cached + TextsOf(sources))
      modifies this
      ensures Valid() && cached == old(cached) + TextsOf(sources)
      ensures VectorsFor(vectors, sources, |sources|, e)
      ensures CacheKept(old(cache), cache)
    {
      vectors := map[];
      ghost var all := cached + TextsOf(sources);
      ToldFewer(e, all, TextsOf(sources));
      for i := 0 to |sources|
        invariant Valid() && cached == old(cached) + TextsOf(sources[..i])
        invariant VectorsFor(vectors, sources, i, e)
        invariant CacheKept(old(cache), cache)
      {
        TextsSnoc(sources, i);
        ToldFewer(e, all, cached + {sources[i].text});
        ghost var before := cache;
        var vector := VectorOf(sources[i]);
        CacheKeptLonger(old(cache), before, cache);
        VectorsMore(vectors, sources, i, e);
        vectors := vectors[sources[i].fingerprint := vector];
      }
      TakeAll(sources);
    }

    /** Every source scored by its vector, best first, each ref once, at most `limit` of them. */
    method DenseRanking(question: string, sources: seq<Source>, limit: nat) returns (ranked: seq<Item>)
      requires Valid() && SourcesOk(sources, e) && limit > 0 && Told(e, cached + TextsOf(sources))
      modifies this
      ensures Valid() && cached == old(cached) + TextsOf(sources)
      ensures ranked == TakeAtMost(DenseOrder(sources, question, e), limit)
    {
      var vectors := Vectors(sources);
      var candidates := ScoreAll(vectors, sources, question, e);
      ranked := UniqueRefs(Items(Sort(candidates, BestLe)), limit);
    }

    /** `rank`: whatever valid cache it starts from, the answer is the one no cache gives. */
    method Rank(question: string, sources: seq<Source>, modelRevision: string, topK: int)
      returns (r: Option<Response>)
      requires Valid() && Told(e, cached + TextsOf(sources))
      modifies this
      ensures Valid() && cached == old(cached) + if r.Some? then TextsOf(sources) else {}
      ensures r.Some? <==> modelRevision == revision && !Contracts.Blank(question) && 1 <= topK <= 100 && SourcesOk(sources, e)
      ensures r.Some? ==> r.value == Answer(question, sources, topK, policy, e, lexer)
    {
      if modelRevision != revision || Contracts.Blank(question) || !(1 <= topK <= 100) || !SourcesOk(sources, e) {
        return None;
      }
      var ranked := DenseRanking(question, sources, if policy.Fusion? then WINDOW else topK);
      if policy.Dense? {
        return Some(Response(ranked, None));
      }
      var lexical := Bm25(question, sources, lexer);
      if policy.Fusion? {
        var fused := Fuse([ranked, lexical], topK);
        return Some(Response(fused, None));
      }
      var unique := UniqueRefs(lexical, topK);
      return Some(Response(ranked, Some(unique)));
    }
  }

  // ---- the answer forgets the order of the rows ----

  function Once(s: seq<ScoredItem>): seq<ScoredItem> {
    if s == [] then []
    else
      var init, last := s[..|s| - 1], s[|s| - 1];
      if last in init then Once(init) else Once(init) + [last]
  }

  lemma {:induction false} OnceKeeps(s: seq<ScoredItem>)
    ensures !Repeats(Once(s)) && forall x :: x in Once(s) <==> x in s
    decreases |s|
  {
    if s == [] {
    } else {
      assert s == s[..|s| - 1] + [s[|s| - 1]];
      OnceKeeps(s[..|s| - 1]);
    }
  }

  lemma {:induction false} OnceSorted(s: seq<ScoredItem>)
    requires Sorted(s, BestLe)
    ensures Sorted(Once(s), BestLe)
    decreases |s|
  {
    if s == [] {
    } else {
      var init, last := s[..|s| - 1], s[|s| - 1];
      assert forall i :: 0 <= i < |init| ==> init[i] == s[i];
      OnceSorted(init);
      OnceKeeps(init);
      forall x | x in Once(init)
        ensures BestLe(x, last)
      {
        var i :| 0 <= i < |init| && init[i] == x;
      }
    }
  }

  /** Two rankings with one list of first occurrences have the same references. */
  lemma SameRefs(a: seq<Item>, b: seq<Item>)
    requires FirstRefs(a) == FirstRefs(b)
    ensures Refs(a) == Refs(b)
  {
    FirstRefsDistinct(a);
    FirstRefsDistinct(b);
  }

  /** A repeated candidate adds no entry. */
  lemma {:induction false} OnceFirstRefs(s: seq<ScoredItem>)
    ensures FirstRefs(Items(Once(s))) == FirstRefs(Items(s))
    decreases |s|
  {
    if s == [] {
    } else {
      var init, last := s[..|s| - 1], s[|s| - 1];
      OnceFirstRefs(init);
      assert Items(s)[..|s| - 1] == Items(init);
      FirstRefsDistinct(Items(init));
      if last in init {
        var i :| 0 <= i < |init| && init[i] == last;
        assert Items(init)[i].ref in Refs(Items(init));
      } else {
        var once := Once(init) + [last];
        assert Once(s) == once;
        assert Items(once)[..|once| - 1] == Items(Once(init)) && Items(once)[|once| - 1] == last.item;
        SameRefs(Items(Once(init)), Items(init));
      }
    }
  }

  lemma DenseForgetsOrder(sources: seq<Source>, others: seq<Source>, question: string, e: Encoder)
    requires forall s :: s in sources <==> s in others
    ensures DenseOrder(sources, question, e) == DenseOrder(others, question, e)
  {
    var a, b := Candidates(sources, question, e), Candidates(others, question, e);
    BestOrders();
    SortSorts(a, BestLe);
    SortSorts(b, BestLe);
    var s, t := Sort(a, BestLe), Sort(b, BestLe);
    OnceSorted(s);
    OnceSorted(t);
    OnceKeeps(s);
    OnceKeeps(t);
    forall x
      ensures x in Once(s) <==> x in Once(t)
    {
      SameCandidates(sources, others, question, e, x);
      SameCandidates(others, sources, question, e, x);
    }
    SameMembers(Once(s), Once(t));
    SortedUnique(Once(s), Once(t), BestLe);
    OnceFirstRefs(s);
    OnceFirstRefs(t);
  }

  lemma SameCandidates(sources: seq<Source>, others: seq<Source>, question: string, e: Encoder, x: ScoredItem)
    requires forall s :: s in sources ==> s in others
    ensures x in Candidates(sources, question, e) ==> x in Candidates(others, question, e)
  {
    var a, b := Candidates(sources, question, e), Candidates(others, question, e);
    if x in a {
      var i :| 0 <= i < |a| && a[i] == x;
      assert sources[i] in sources;
      var j :| 0 <= j < |others| && others[j] == sources[i];
      assert b[j] == x;
    }
  }

  /** The whole answer is unchanged by permuting or repeating source rows. */
  lemma AnswerForgetsOrder(question: string, sources: seq<Source>, others: seq<Source>, topK: nat, policy: Policy,
                           e: Encoder, lexer: Lexer)
    requires Fingerprinted(sources) && forall s :: s in sources <==> s in others
    ensures Answer(question, sources, topK, policy, e, lexer) == Answer(question, others, topK, policy, e, lexer)
  {
    DenseForgetsOrder(sources, others, question, e);
    Bm25ForgetsOrder(question, sources, others, lexer);
  }
}
