/** The lexical bridge table: written by the build script, read back byte for byte. */
module Kmpb {
  import opened Prelude
  import opened Ordering

  type Byte = b: int | 0 <= b < 256

  type Bytes = seq<Byte>

  /** One word, as UTF-8, and its unit vector. */
  datatype Row = Row(word: Bytes, vector: seq<real>)

  const MAGIC: Bytes := [75, 77, 80, 66, 82, 73, 68, 71]

  const VERSION: nat := 1

  // ---- numbers ----

  function Rank(b: Byte): (n: int)
    ensures 0 <= n < 256
  {
    b
  }

  function U16(n: nat): Bytes
    requires n < 0x1_0000
  {
    [n % 256, n / 256]
  }

  function U32(n: nat): Bytes
    requires n < 0x1_0000_0000
  {
    [n % 256, n / 256 % 256, n / 65536 % 256, n / 16777216]
  }

  function FromU16(b: Bytes): nat
    requires |b| == 2
  {
    Rank(b[0]) + 256 * Rank(b[1])
  }

  function FromU32(b: Bytes): nat
    requires |b| == 4
  {
    Rank(b[0]) + 256 * Rank(b[1]) + 65536 * Rank(b[2]) + 16777216 * Rank(b[3])
  }

  lemma U16ReadsBack(n: nat)
    requires n < 0x1_0000
    ensures FromU16(U16(n)) == n
  {
  }

  lemma U32ReadsBack(n: nat)
    requires n < 0x1_0000_0000
    ensures FromU32(U32(n)) == n
  {
    assert n == n % 256 + 256 * (n / 256);
    assert n / 256 == n / 256 % 256 + 256 * (n / 256 / 256);
    assert n / 256 / 256 == n / 65536;
    assert n / 65536 == n / 65536 % 256 + 256 * (n / 65536 / 256);
    assert n / 65536 / 256 == n / 16777216;
  }

  /** `np.round`: to the nearest, ties to even. */
  function RoundEven(x: real): int {
    var low := x.Floor;
    var part := x - low as real;
    if part < 0.5 || (part == 0.5 && low % 2 == 0) then low else low + 1
  }

  function Clip(n: int): (r: int)
    ensures -127 <= r <= 127
  {
    if n < -127 then -127 else if n > 127 then 127 else n
  }

  function Quantized(x: real): (r: int)
    ensures -127 <= r <= 127
  {
    Clip(RoundEven(x * 127.0))
  }

  /** A signed byte in two's complement. */
  function ToByte(n: int): Byte
    requires -128 <= n < 128
  {
    if n < 0 then n + 256 else n
  }

  function FromByte(b: Byte): (n: int)
    ensures -128 <= n < 128
  {
    if b < 128 then b else b - 256
  }

  // ---- writing ----

  predicate WordLe(a: Bytes, b: Bytes) {
    LexLe(a, b, Rank)
  }

  predicate RowLe(a: Row, b: Row) {
    WordLe(a.word, b.word)
  }

  function Blob(rows: seq<Row>): Bytes {
    if rows == [] then [] else Blob(rows[..|rows| - 1]) + rows[|rows| - 1].word
  }

  /** Where each word begins, and where the last one ends. */
  function Offsets(rows: seq<Row>): (r: seq<nat>)
    ensures |r| == |rows| + 1 && r[|rows|] == |Blob(rows)|
  {
    if rows == [] then [0] else Offsets(rows[..|rows| - 1]) + [|Blob(rows)|]
  }

  function Signed(vector: seq<real>): (r: seq<int>)
    ensures |r| == |vector| && forall i :: 0 <= i < |r| ==> r[i] == Quantized(vector[i])
  {
    seq(|vector|, i requires 0 <= i < |vector| => Quantized(vector[i]))
  }

  /** Every vector, one after the other. */
  function Flat(rows: seq<Row>): seq<int> {
    if rows == [] then [] else Flat(rows[..|rows| - 1]) + Signed(rows[|rows| - 1].vector)
  }

  predicate Small(ns: seq<int>) {
    forall i :: 0 <= i < |ns| ==> -127 <= ns[i] <= 127
  }

  function ToBytes(ns: seq<int>): (r: Bytes)
    requires Small(ns)
    ensures |r| == |ns| && forall i :: 0 <= i < |r| ==> r[i] == ToByte(ns[i])
  {
    seq(|ns|, i requires 0 <= i < |ns| => ToByte(ns[i]))
  }

  predicate Fit32(ns: seq<nat>) {
    forall i :: 0 <= i < |ns| ==> ns[i] < 0x1_0000_0000
  }

  function U32s(ns: seq<nat>): Bytes
    requires Fit32(ns)
  {
    if ns == [] then [] else U32s(ns[..|ns| - 1]) + U32(ns[|ns| - 1])
  }

  /** What `struct.pack` can hold. */
  predicate Fits(rows: seq<Row>, dims: nat, model: Bytes) {
    dims < 0x1_0000 && |model| < 0x1_0000 && |rows| < 0x1_0000_0000 && |Blob(rows)| < 0x1_0000_0000
  }

  lemma {:induction false} OffsetsFit(rows: seq<Row>)
    requires |Blob(rows)| < 0x1_0000_0000
    ensures Fit32(Offsets(rows))
    decreases |rows|
  {
    if rows == [] {
    } else {
      OffsetsFit(rows[..|rows| - 1]);
    }
  }

  lemma {:induction false} FlatSmall(rows: seq<Row>)
    ensures Small(Flat(rows))
    decreases |rows|
  {
    if rows == [] {
    } else {
      FlatSmall(rows[..|rows| - 1]);
    }
  }

  /** The table of rows already in byte order. */
  function Encoded(rows: seq<Row>, dims: nat, model: Bytes): Bytes
    requires Fits(rows, dims, model)
  {
    WithHeader(dims, |rows|, model, Body(rows))
  }

  function WithHeader(dims: nat, count: nat, model: Bytes, body: Bytes): Bytes
    requires dims < 0x1_0000 && |model| < 0x1_0000 && count < 0x1_0000_0000
  {
    MAGIC + (U16(VERSION) + (U16(dims) + (U32(count) + (U16(|model|) + (model + body)))))
  }

  function Body(rows: seq<Row>): Bytes
    requires |Blob(rows)| < 0x1_0000_0000
  {
    OffsetsFit(rows);
    FlatSmall(rows);
    U32s(Offsets(rows)) + (Blob(rows) + ToBytes(Flat(rows)))
  }

  /** `write_table`: sorted by the bytes of the words; too large a table cannot be packed. */
  method WriteTable(rows: seq<Row>, dims: nat, model: Bytes) returns (r: Option<Bytes>)
    ensures r.Some? <==> Fits(Sort(rows, RowLe), dims, model)
    ensures r.Some? ==> r.value == Encoded(Sort(rows, RowLe), dims, model)
  {
    var sorted := Sort(rows, RowLe);
    var blob: Bytes, offsets: seq<nat>, quantized: seq<int> := [], [0], [];
    for i := 0 to |sorted|
      invariant blob == Blob(sorted[..i]) && offsets == Offsets(sorted[..i]) && quantized == Flat(sorted[..i])
    {
      TakeSnoc(sorted, i);
      blob := blob + sorted[i].word;
      offsets, quantized := offsets + [|blob|], quantized + Signed(sorted[i].vector);
    }
    TakeAll(sorted);
    if dims >= 0x1_0000 || |sorted| >= 0x1_0000_0000 || |model| >= 0x1_0000 || |blob| >= 0x1_0000_0000 {
      return None;
    }
    OffsetsFit(sorted);
    FlatSmall(sorted);
    return Some(WithHeader(dims, |sorted|, model, U32s(offsets) + (blob + ToBytes(quantized))));
  }

  // ---- reading ----

  /** A validated table: its sections, and what they mean. */
  datatype Table = Table(dims: nat, provenance: Bytes, offsets: seq<nat>, words: Bytes, vectors: Bytes)

  function ReadU32s(b: Bytes, n: nat): (r: seq<nat>)
    requires |b| >= 4 * n
    ensures |r| == n
  {
    if n == 0 then [] else ReadU32s(b, n - 1) + [U32At(b, n - 1)]
  }

  function U32At(b: Bytes, k: nat): nat
    requires |b| >= 4 * k + 4
  {
    FromU32(b[4 * k..4 * k + 4])
  }

  datatype Head = Head(dims: nat, count: nat, provenance: Bytes, rest: Bytes)

  function ParseProvenance(dims: nat, count: nat, b: Bytes, utf8: Bytes -> bool): Option<Head> {
    if |b| < 2 || |b[2..]| < FromU16(b[..2]) then None
    else
      var n, rest := FromU16(b[..2]), b[2..];
      if utf8(rest[..n]) then Some(Head(dims, count, rest[..n], rest[n..])) else None
  }

  function ParseCount(dims: nat, b: Bytes, utf8: Bytes -> bool): Option<Head> {
    if |b| < 4 then None else ParseProvenance(dims, FromU32(b[..4]), b[4..], utf8)
  }

  function ParseDims(b: Bytes, utf8: Bytes -> bool): Option<Head> {
    if |b| < 2 || FromU16(b[..2]) == 0 then None else ParseCount(FromU16(b[..2]), b[2..], utf8)
  }

  function ParseVersion(b: Bytes, utf8: Bytes -> bool): Option<Head> {
    if |b| < 2 || FromU16(b[..2]) != VERSION then None else ParseDims(b[2..], utf8)
  }

  function ParseHead(b: Bytes, utf8: Bytes -> bool): Option<Head> {
    if |b| < 8 || b[..8] != MAGIC then None else ParseVersion(b[8..], utf8)
  }

  predicate Increasing(offsets: seq<nat>) {
    |offsets| > 0 && offsets[0] == 0 && forall i :: 0 < i < |offsets| ==> offsets[i - 1] <= offsets[i]
  }

  lemma OffsetBounded(offsets: seq<nat>, i: nat)
    requires Increasing(offsets) && i < |offsets|
    ensures offsets[i] <= offsets[|offsets| - 1]
    decreases |offsets| - i
  {
    if i + 1 < |offsets| { OffsetBounded(offsets, i + 1); }
  }

  predicate Laid(offsets: seq<nat>, words: Bytes) {
    Increasing(offsets) && offsets[|offsets| - 1] == |words|
  }

  function WordAt(offsets: seq<nat>, words: Bytes, i: nat): Bytes
    requires Laid(offsets, words) && i + 1 < |offsets|
  {
    OffsetBounded(offsets, i + 1);
    words[offsets[i]..offsets[i + 1]]
  }

  predicate WordLt(a: Bytes, b: Bytes) {
    WordLe(a, b) && a != b
  }

  /** Every word is UTF-8 and comes strictly after the one before it. */
  predicate WordsOk(offsets: seq<nat>, words: Bytes, utf8: Bytes -> bool)
    requires Laid(offsets, words)
  {
    forall i :: 0 <= i < |offsets| - 1 ==> WordOk(offsets, words, utf8, i)
  }

  predicate WordOk(offsets: seq<nat>, words: Bytes, utf8: Bytes -> bool, i: nat)
    requires Laid(offsets, words) && i + 1 < |offsets|
  {
    utf8(WordAt(offsets, words, i)) && (i > 0 ==> WordLt(WordAt(offsets, words, i - 1), WordAt(offsets, words, i)))
  }

  /** The sections after the header, when they account for every byte. */
  function ParseBody(head: Head, utf8: Bytes -> bool): Option<Table> {
    var n := 4 * (head.count + 1);
    if |head.rest| < n || !Increasing(ReadU32s(head.rest, head.count + 1)) then None
    else ParseWords(head, ReadU32s(head.rest, head.count + 1), head.rest[n..], utf8)
  }

  function ParseWords(head: Head, offsets: seq<nat>, rest: Bytes, utf8: Bytes -> bool): Option<Table>
    requires |offsets| == head.count + 1 && Increasing(offsets)
  {
    if |rest| < offsets[head.count] then None
    else
      var words, vectors := rest[..offsets[head.count]], rest[offsets[head.count]..];
      if !WordsOk(offsets, words, utf8) || |vectors| != Cells(head.count, head.dims) then None
      else Some(Table(head.dims, head.provenance, offsets, words, vectors))
  }

  function Cells(count: nat, dims: nat): nat { count * dims }

  function Parse(bytes: Bytes, utf8: Bytes -> bool): Option<Table> {
    var head := ParseHead(bytes, utf8);
    if head.None? then None else ParseBody(head.value, utf8)
  }

  /** The reader's place in the bytes. */
  class Cursor {
    var rest: Bytes

    constructor (bytes: Bytes)
      ensures rest == bytes
    {
      rest := bytes;
    }

    /** `take`: the next bytes, or a truncated table. */
    method Take(n: nat) returns (r: Option<Bytes>)
      modifies this
      ensures r.Some? <==> n <= |old(rest)|
      ensures r.Some? ==> r.value == old(rest)[..n] && rest == old(rest)[n..]
      ensures r.None? ==> rest == old(rest)
    {
      if |rest| < n {
        return None;
      }
      r, rest := Some(rest[..n]), rest[n..];
    }

    method U16Le() returns (r: Option<nat>)
      modifies this
      ensures r.Some? <==> 2 <= |old(rest)|
      ensures r.Some? ==> r.value == FromU16(old(rest)[..2]) && rest == old(rest)[2..]
    {
      var b := Take(2);
      return if b.Some? then Some(FromU16(b.value)) else None;
    }

    method U32Le() returns (r: Option<nat>)
      modifies this
      ensures r.Some? <==> 4 <= |old(rest)|
      ensures r.Some? ==> r.value == FromU32(old(rest)[..4]) && rest == old(rest)[4..]
    {
      var b := Take(4);
      return if b.Some? then Some(FromU32(b.value)) else None;
    }

    method ReadHead(utf8: Bytes -> bool) returns (r: Option<Head>)
      modifies this
      ensures r == ParseHead(old(rest), utf8)
      ensures r.Some? ==> rest == r.value.rest
    {
      var magic := Take(8);
      if magic.None? || magic.value != MAGIC {
        return None;
      }
      var version := U16Le();
      if version.None? || version.value != VERSION {
        return None;
      }
      var dims := U16Le();
      if dims.None? || dims.value == 0 {
        return None;
      }
      var count := U32Le();
      if count.None? {
        return None;
      }
      var n := U16Le();
      if n.None? {
        return None;
      }
      var provenance := Take(n.value);
      if provenance.None? || !utf8(provenance.value) {
        return None;
      }
      return Some(Head(dims.value, count.value, provenance.value, rest));
    }
  }

  predicate Rising(offsets: seq<nat>) {
    forall i :: 0 < i < |offsets| ==> offsets[i - 1] <= offsets[i]
  }

  lemma FallingStays(offsets: seq<nat>, all: seq<nat>)
    requires offsets <= all && !Rising(offsets)
    ensures !Increasing(all)
  {
    var i :| 0 < i < |offsets| && offsets[i - 1] > offsets[i];
    assert all[i - 1] > all[i];
  }

  lemma RisingSnoc(offsets: seq<nat>, offset: nat)
    requires offsets != [] && Rising(offsets)
    ensures Rising(offsets + [offset]) <==> offsets[|offsets| - 1] <= offset
  {
    var all := offsets + [offset];
    assert forall i :: 0 <= i < |offsets| ==> all[i] == offsets[i];
    assert all[|offsets|] == offset;
  }

  /** The offset section, read where it lies. */
  method ReadOffsets(section: Bytes, count: nat) returns (r: Option<seq<nat>>)
    requires |section| == 4 * (count + 1)
    ensures r.Some? <==> Increasing(ReadU32s(section, count + 1))
    ensures r.Some? ==> r.value == ReadU32s(section, count + 1)
  {
    var offsets := ReadU32s(section, 1);
    for index := 1 to count + 1
      invariant offsets == ReadU32s(section, index) && |offsets| == index && Rising(offsets)
    {
      var offset := U32At(section, index);
      ReadU32sSnoc(section, index);
      RisingSnoc(offsets, offset);
      if offset < offsets[index - 1] {
        ReadU32sPrefix(section, index + 1, count + 1);
        FallingStays(offsets + [offset], ReadU32s(section, count + 1));
        return None;
      }
      offsets := offsets + [offset];
    }
    return if offsets[0] == 0 then Some(offsets) else None;
  }

  lemma ReadU32sSnoc(b: Bytes, n: nat)
    requires |b| >= 4 * n + 4
    ensures ReadU32s(b, n + 1) == ReadU32s(b, n) + [U32At(b, n)]
  {
  }

  lemma {:induction false} ReadU32sPrefix(b: Bytes, m: nat, n: nat)
    requires m <= n && |b| >= 4 * n
    ensures ReadU32s(b, m) == ReadU32s(b, n)[..m]
    decreases n
  {
    if m < n { ReadU32sPrefix(b, m, n - 1); }
  }

  /** `validate_words`: each against the one before it. */
  method ValidateWords(offsets: seq<nat>, words: Bytes, utf8: Bytes -> bool) returns (ok: bool)
    requires Laid(offsets, words)
    ensures ok <==> WordsOk(offsets, words, utf8)
  {
    for i := 0 to |offsets| - 1
      invariant forall k :: 0 <= k < i ==> WordOk(offsets, words, utf8, k)
    {
      var word := WordAt(offsets, words, i);
      if !utf8(word) || (i > 0 && !WordLt(WordAt(offsets, words, i - 1), word)) {
        assert !WordOk(offsets, words, utf8, i);
        return false;
      }
    }
    return true;
  }

  /** The offsets, words and vectors, to the last byte. */
  method ReadBody(cursor: Cursor, head: Head, utf8: Bytes -> bool) returns (r: Option<Table>)
    requires cursor.rest == head.rest
    modifies cursor
    ensures r == ParseBody(head, utf8)
  {
    var section := cursor.Take(4 * (head.count + 1));
    if section.None? {
      return None;
    }
    ReadU32sOf(head.rest, section.value, head.count + 1);
    var offsets := ReadOffsets(section.value, head.count);
    if offsets.None? {
      return None;
    }
    r := ReadWords(cursor, head, offsets.value, utf8);
  }

  method ReadWords(cursor: Cursor, head: Head, offsets: seq<nat>, utf8: Bytes -> bool) returns (r: Option<Table>)
    requires |offsets| == head.count + 1 && Increasing(offsets)
    modifies cursor
    ensures r == ParseWords(head, offsets, old(cursor.rest), utf8)
  {
    var words := cursor.Take(offsets[head.count]);
    if words.None? {
      return None;
    }
    var ok := ValidateWords(offsets, words.value, utf8);
    if !ok {
      return None;
    }
    TakeAll(cursor.rest);
    var vectors := cursor.Take(Cells(head.count, head.dims));
    if vectors.None? || cursor.rest != [] {
      return None;
    }
    return Some(Table(head.dims, head.provenance, offsets, words.value, vectors.value));
  }

  /** `LexicalBridgeTable::parse`: every section accounted for, every word in order. */
  method ParseTable(bytes: Bytes, utf8: Bytes -> bool) returns (r: Option<Table>)
    ensures r == Parse(bytes, utf8)
  {
    var cursor := new Cursor(bytes);
    var head := cursor.ReadHead(utf8);
    if head.None? {
      return None;
    }
    r := ReadBody(cursor, head.value, utf8);
  }

  lemma {:induction false} ReadU32sOf(b: Bytes, section: Bytes, n: nat)
    requires |section| >= 4 * n && section <= b
    ensures ReadU32s(b, n) == ReadU32s(section, n)
    decreases n
  {
    if n > 0 {
      ReadU32sOf(b, section, n - 1);
      assert b[4 * n - 4..4 * n] == section[4 * n - 4..4 * n];
    }
  }

  // ---- what was written is what is read ----

  lemma Cut(a: Bytes, b: Bytes)
    ensures (a + b)[..|a|] == a && (a + b)[|a|..] == b
  {
  }

  lemma ProvenanceReadsBack(dims: nat, count: nat, model: Bytes, body: Bytes, utf8: Bytes -> bool)
    requires |model| < 0x1_0000 && utf8(model)
    ensures ParseProvenance(dims, count, U16(|model|) + (model + body), utf8) == Some(Head(dims, count, model, body))
  {
    Cut(U16(|model|), model + body);
    U16ReadsBack(|model|);
    Cut(model, body);
  }

  lemma CountReadsBack(dims: nat, count: nat, rest: Bytes, utf8: Bytes -> bool)
    requires count < 0x1_0000_0000
    ensures ParseCount(dims, U32(count) + rest, utf8) == ParseProvenance(dims, count, rest, utf8)
  {
    Cut(U32(count), rest);
    U32ReadsBack(count);
  }

  /** The header is read back, and what follows it is left. */
  lemma HeadReadsBack(dims: nat, count: nat, model: Bytes, body: Bytes, utf8: Bytes -> bool)
    requires 0 < dims < 0x1_0000 && |model| < 0x1_0000 && count < 0x1_0000_0000 && utf8(model)
    ensures ParseHead(WithHeader(dims, count, model, body), utf8) == Some(Head(dims, count, model, body))
  {
    var fromCount := U32(count) + (U16(|model|) + (model + body));
    var fromDims := U16(dims) + fromCount;
    Cut(MAGIC, U16(VERSION) + fromDims);
    Cut(U16(VERSION), fromDims);
    U16ReadsBack(VERSION);
    Cut(U16(dims), fromCount);
    U16ReadsBack(dims);
    CountReadsBack(dims, count, U16(|model|) + (model + body), utf8);
    ProvenanceReadsBack(dims, count, model, body, utf8);
  }

  lemma {:induction false} U32sReadBack(ns: seq<nat>, rest: Bytes)
    requires Fit32(ns)
    ensures |U32s(ns)| == 4 * |ns|
    ensures ReadU32s(U32s(ns) + rest, |ns|) == ns
    decreases |ns|
  {
    if ns == [] {
    } else {
      var init, n := ns[..|ns| - 1], ns[|ns| - 1];
      var all := U32s(ns) + rest;
      assert all == U32s(init) + (U32(n) + rest);
      U32sReadBack(init, U32(n) + rest);
      assert all[4 * |init|..4 * |init| + 4] == U32(n);
      U32ReadsBack(n);
      ReadU32sSnoc(all, |init|);
      assert ns == init + [n];
    }
  }

  lemma {:induction false} OffsetsAre(rows: seq<Row>, i: nat)
    requires i <= |rows|
    ensures Offsets(rows)[i] == |Blob(rows[..i])|
    ensures |Blob(rows[..i])| <= |Blob(rows)| && Blob(rows)[..|Blob(rows[..i])|] == Blob(rows[..i])
    decreases |rows|
  {
    if i < |rows| {
      var init := rows[..|rows| - 1];
      OffsetsAre(init, i);
      assert init[..i] == rows[..i];
    } else {
      TakeAll(rows);
    }
  }

  lemma WordLies(rows: seq<Row>, i: nat)
    requires i < |rows|
    ensures Offsets(rows)[i] <= Offsets(rows)[i + 1] <= |Blob(rows)|
    ensures Blob(rows)[Offsets(rows)[i]..Offsets(rows)[i + 1]] == rows[i].word
  {
    OffsetsAre(rows, i);
    OffsetsAre(rows, i + 1);
    BlobSnoc(rows, i);
  }

  /** The words lie where the offsets say. */
  lemma WordsLie(rows: seq<Row>)
    ensures Laid(Offsets(rows), Blob(rows))
    ensures forall i :: 0 <= i < |rows| ==> WordAt(Offsets(rows), Blob(rows), i) == rows[i].word
  {
    var offsets := Offsets(rows);
    OffsetsAre(rows, 0);
    forall i | 0 < i < |offsets|
      ensures offsets[i - 1] <= offsets[i]
    {
      WordLies(rows, i - 1);
    }
    forall i | 0 <= i < |rows|
      ensures WordAt(offsets, Blob(rows), i) == rows[i].word
    {
      WordLies(rows, i);
    }
  }

  lemma BlobSnoc(rows: seq<Row>, i: nat)
    requires i < |rows|
    ensures Blob(rows[..i + 1]) == Blob(rows[..i]) + rows[i].word
  {
    assert rows[..i + 1][..i] == rows[..i];
  }

  predicate Words(rows: seq<Row>, utf8: Bytes -> bool) {
    forall i :: 0 <= i < |rows| ==> utf8(rows[i].word)
  }

  /** Strictly increasing words. */
  predicate Strict(rows: seq<Row>) {
    forall i :: 0 < i < |rows| ==> WordLt(rows[i - 1].word, rows[i].word)
  }

  lemma WordsOkIff(rows: seq<Row>, utf8: Bytes -> bool)
    requires Words(rows, utf8) && Laid(Offsets(rows), Blob(rows))
    ensures WordsOk(Offsets(rows), Blob(rows), utf8) <==> Strict(rows)
  {
    WordsLie(rows);
    var offsets, blob := Offsets(rows), Blob(rows);
    if WordsOk(offsets, blob, utf8) {
      forall i | 0 < i < |rows|
        ensures WordLt(rows[i - 1].word, rows[i].word)
      {
        assert WordOk(offsets, blob, utf8, i);
      }
    }
  }

  predicate Wide(rows: seq<Row>, dims: nat) {
    forall i :: 0 <= i < |rows| ==> |rows[i].vector| == dims
  }

  lemma {:induction false} FlatCells(rows: seq<Row>, dims: nat)
    requires Wide(rows, dims)
    ensures |Flat(rows)| == Cells(|rows|, dims)
    decreases |rows|
  {
    if rows == [] {
    } else {
      FlatCells(rows[..|rows| - 1], dims);
      CellsMore(|rows| - 1, dims);
    }
  }

  lemma CellsMore(count: nat, dims: nat)
    ensures Cells(count + 1, dims) == Cells(count, dims) + dims
  {
  }

  /** The reader's view of the table written for these rows. */
  function TableOf(rows: seq<Row>, dims: nat, model: Bytes): Table {
    FlatSmall(rows);
    Table(dims, model, Offsets(rows), Blob(rows), ToBytes(Flat(rows)))
  }

  lemma BodyReadsBack(rows: seq<Row>, dims: nat, model: Bytes, utf8: Bytes -> bool)
    requires Fits(rows, dims, model) && Wide(rows, dims) && Words(rows, utf8)
    ensures ParseBody(Head(dims, |rows|, model, Body(rows)), utf8) == if Strict(rows) then Some(TableOf(rows, dims, model)) else None
  {
    OffsetsFit(rows);
    FlatSmall(rows);
    var offsets, vectors := Offsets(rows), ToBytes(Flat(rows));
    U32sReadBack(offsets, Blob(rows) + vectors);
    Cut(U32s(offsets), Blob(rows) + vectors);
    Cut(Blob(rows), vectors);
    WordsLie(rows);
    WordsOkIff(rows, utf8);
    FlatCells(rows, dims);
  }

  /** A written table is read back whole, and no byte is left over, exactly when its words come in
      strictly increasing byte order. */
  lemma TableReadsBackIff(rows: seq<Row>, dims: nat, model: Bytes, utf8: Bytes -> bool)
    requires Fits(rows, dims, model) && dims > 0 && Wide(rows, dims) && Words(rows, utf8) && utf8(model)
    ensures Parse(Encoded(rows, dims, model), utf8) == if Strict(rows) then Some(TableOf(rows, dims, model)) else None
  {
    HeadReadsBack(dims, |rows|, model, Body(rows), utf8);
    BodyReadsBack(rows, dims, model, utf8);
  }

  // ---- the order of the words ----

  lemma WordOrders()
    ensures Orders(WordLe)
  {
    assert Injective(Rank) by {
      forall x: Byte, y: Byte | Rank(x) == Rank(y)
        ensures x == y
      {
        assert x as int == y as int;
      }
    }
    forall a: Bytes, b: Bytes
      ensures WordLe(a, b) || WordLe(b, a)
      ensures WordLe(a, b) && WordLe(b, a) ==> a == b
    {
      LexTotal(a, b, Rank);
      if WordLe(a, b) && WordLe(b, a) { LexAntisymmetric(a, b, Rank); }
    }
    forall a: Bytes, b: Bytes, c: Bytes | WordLe(a, b) && WordLe(b, c)
      ensures WordLe(a, c)
    {
      LexTransitive(a, b, c, Rank);
    }
  }

  predicate WordsDistinct(rows: seq<Row>) {
    forall i, j :: 0 <= i < j < |rows| ==> rows[i].word != rows[j].word
  }

  lemma {:induction false} StrictAcross(rows: seq<Row>, i: nat, j: nat)
    requires Strict(rows) && i < j < |rows|
    ensures WordLt(rows[i].word, rows[j].word)
    decreases j - i
  {
    WordOrders();
    if i + 1 < j { StrictAcross(rows, i, j - 1); }
  }

  lemma StrictIffDistinct(rows: seq<Row>)
    requires Sorted(rows, RowLe)
    ensures Strict(rows) <==> WordsDistinct(rows)
  {
    if Strict(rows) {
      forall i, j | 0 <= i < j < |rows|
        ensures rows[i].word != rows[j].word
      {
        StrictAcross(rows, i, j);
      }
    }
  }

  lemma SortedRows(rows: seq<Row>)
    ensures Sorted(Sort(rows, RowLe), RowLe)
    ensures multiset(Sort(rows, RowLe)) == multiset(rows) && |Sort(rows, RowLe)| == |rows|
    ensures forall r :: r in Sort(rows, RowLe) <==> r in rows
  {
    WordOrders();
    SortSorts(rows, RowLe);
  }

  // ---- words and vectors of a table ----

  function VectorAt(t: Table, i: nat): (r: seq<int>)
    requires Cells(i, t.dims) + t.dims <= |t.vectors|
    ensures |r| == t.dims
  {
    seq(t.dims, j requires 0 <= j < t.dims => FromByte(t.vectors[Cells(i, t.dims) + j]))
  }

  lemma SignReadsBack(n: int)
    requires -128 <= n < 128
    ensures FromByte(ToByte(n)) == n
  {
  }

  lemma {:induction false} FlatAt(rows: seq<Row>, dims: nat, i: nat)
    requires Wide(rows, dims) && i < |rows|
    ensures Cells(i, dims) + dims <= |Flat(rows)|
    ensures Flat(rows)[Cells(i, dims)..Cells(i, dims) + dims] == Signed(rows[i].vector)
    decreases |rows|
  {
    var init, last := rows[..|rows| - 1], rows[|rows| - 1];
    FlatCells(init, dims);
    assert Flat(rows) == Flat(init) + Signed(last.vector) && |Signed(last.vector)| == dims;
    if i < |rows| - 1 {
      FlatAt(init, dims, i);
      assert Flat(rows)[Cells(i, dims)..Cells(i, dims) + dims] == Flat(init)[Cells(i, dims)..Cells(i, dims) + dims];
    } else {
      assert |Flat(init)| == Cells(i, dims);
    }
  }

  /** Every word of a written table comes back with its own quantised vector. */
  lemma RowReadsBack(rows: seq<Row>, dims: nat, model: Bytes, i: nat)
    requires Wide(rows, dims) && i < |rows|
    ensures var t := TableOf(rows, dims, model);
            && |t.offsets| == |rows| + 1 && Laid(t.offsets, t.words) && WordAt(t.offsets, t.words, i) == rows[i].word
            && Cells(i, dims) + dims <= |t.vectors| && VectorAt(t, i) == Signed(rows[i].vector)
  {
    WordsLie(rows);
    FlatAt(rows, dims, i);
    FlatSmall(rows);
    var t := TableOf(rows, dims, model);
    forall j | 0 <= j < dims
      ensures VectorAt(t, i)[j] == Signed(rows[i].vector)[j]
    {
      assert Flat(rows)[Cells(i, dims)..Cells(i, dims) + dims][j] == Flat(rows)[Cells(i, dims) + j];
      SignReadsBack(Flat(rows)[Cells(i, dims) + j]);
    }
  }

  /** `index_of`: a binary search, right because the words are in order. */
  method IndexOf(t: Table, word: Bytes, utf8: Bytes -> bool) returns (r: Option<nat>)
    requires Laid(t.offsets, t.words) && WordsOk(t.offsets, t.words, utf8)
    ensures r.Some? ==> r.value + 1 < |t.offsets| && WordAt(t.offsets, t.words, r.value) == word
    ensures r.None? ==> forall i :: 0 <= i < |t.offsets| - 1 ==> WordAt(t.offsets, t.words, i) != word
  {
    var low, high := 0, |t.offsets| - 1;
    while low < high
      invariant 0 <= low <= high <= |t.offsets| - 1
      invariant forall i :: 0 <= i < low ==> WordLt(WordAt(t.offsets, t.words, i), word)
      invariant forall i :: high <= i < |t.offsets| - 1 ==> WordLt(word, WordAt(t.offsets, t.words, i))
    {
      var middle := low + (high - low) / 2;
      var found := WordAt(t.offsets, t.words, middle);
      if found == word {
        return Some(middle);
      }
      SearchHalves(t, word, utf8, middle);
      if WordLe(found, word) {
        low := middle + 1;
      } else {
        high := middle;
      }
    }
    return None;
  }

  lemma SearchHalves(t: Table, word: Bytes, utf8: Bytes -> bool, middle: nat)
    requires Laid(t.offsets, t.words) && WordsOk(t.offsets, t.words, utf8) && middle + 1 < |t.offsets|
    requires WordAt(t.offsets, t.words, middle) != word
    ensures WordLe(WordAt(t.offsets, t.words, middle), word) ==>
              forall i :: 0 <= i <= middle ==> WordLt(WordAt(t.offsets, t.words, i), word)
    ensures !WordLe(WordAt(t.offsets, t.words, middle), word) ==>
              forall i :: middle <= i < |t.offsets| - 1 ==> WordLt(word, WordAt(t.offsets, t.words, i))
  {
    WordOrders();
    forall i | 0 <= i < |t.offsets| - 1
      ensures i < middle ==> WordLt(WordAt(t.offsets, t.words, i), WordAt(t.offsets, t.words, middle))
      ensures middle < i ==> WordLt(WordAt(t.offsets, t.words, middle), WordAt(t.offsets, t.words, i))
    {
      if i < middle { WordsAcross(t, utf8, i, middle); }
      if middle < i { WordsAcross(t, utf8, middle, i); }
    }
  }

  lemma {:induction false} WordsAcross(t: Table, utf8: Bytes -> bool, i: nat, j: nat)
    requires Laid(t.offsets, t.words) && WordsOk(t.offsets, t.words, utf8) && i < j && j + 1 < |t.offsets|
    ensures WordLt(WordAt(t.offsets, t.words, i), WordAt(t.offsets, t.words, j))
    decreases j - i
  {
    WordOrders();
    assert WordOk(t.offsets, t.words, utf8, j);
    if i + 1 < j { WordsAcross(t, utf8, i, j - 1); }
  }

  /** A squared norm, as the readers sum it. */
  function Norm(vector: seq<int>): nat {
    if vector == [] then 0 else Norm(vector[..|vector| - 1]) + Square(vector[|vector| - 1])
  }

  function Square(n: int): nat {
    if n < 0 then (0 - n) * (0 - n) else n * n
  }

  method NormOf(t: Table, i: nat) returns (norm: nat)
    requires Cells(i, t.dims) + t.dims <= |t.vectors|
    ensures norm == Norm(VectorAt(t, i))
  {
    norm := 0;
    var vector := VectorAt(t, i);
    for j := 0 to |vector|
      invariant norm == Norm(vector[..j])
    {
      TakeSnoc(vector, j);
      norm := norm + Square(vector[j]);
    }
    TakeAll(vector);
  }

  lemma SquareBounded(n: int)
    requires -127 <= n <= 127
    ensures Square(n) <= 16129
  {
    if n < 0 {
      assert (0 - n) * (0 - n) <= 127 * (0 - n) <= 127 * 127;
    } else {
      assert n * n <= 127 * n <= 127 * 127;
    }
  }

  /** A written vector's squared norm is at most its width times 16129. */
  lemma {:induction false} NormBounded(vector: seq<int>)
    requires Small(vector)
    ensures Norm(vector) <= 16129 * |vector|
    decreases |vector|
  {
    if vector == [] {
    } else {
      NormBounded(vector[..|vector| - 1]);
      SquareBounded(vector[|vector| - 1]);
    }
  }

  // ---- from a vocabulary to the table ----

  /** A listed word and the form the kernel searches with. */
  datatype Listed = Listed(key: Bytes, surface: string)

  function Keys(listed: seq<Listed>): set<Bytes> {
    set l | l in listed :: l.key
  }

  /** `seen`: of the words that fold onto one key, the first listed. */
  function Deduplicated(words: seq<string>, fold: string -> Bytes, admits: Bytes -> bool): seq<Listed> {
    if words == [] then []
    else
      var init, word := Deduplicated(words[..|words| - 1], fold, admits), words[|words| - 1];
      var key := fold(word);
      if admits(key) && key !in Keys(init) then init + [Listed(key, word)] else init
  }

  method Deduplicate(words: seq<string>, fold: string -> Bytes, admits: Bytes -> bool) returns (listed: seq<Listed>)
    ensures listed == Deduplicated(words, fold, admits)
  {
    var seen: set<Bytes> := {};
    listed := [];
    for i := 0 to |words|
      invariant listed == Deduplicated(words[..i], fold, admits) && seen == Keys(listed)
    {
      TakeSnoc(words, i);
      var key := fold(words[i]);
      if admits(key) && key !in seen {
        listed, seen := listed + [Listed(key, words[i])], seen + {key};
      }
    }
    TakeAll(words);
  }

  predicate KeysDistinct(listed: seq<Listed>) {
    forall i, j :: 0 <= i < j < |listed| ==> listed[i].key != listed[j].key
  }

  /** The surface is the first of these words with its key. */
  ghost predicate ListedFirst(l: Listed, words: seq<string>, fold: string -> Bytes) {
    exists i :: FirstAt(l, words, fold, i)
  }

  predicate FirstAt(l: Listed, words: seq<string>, fold: string -> Bytes, i: nat) {
    && i < |words| && words[i] == l.surface && fold(l.surface) == l.key
    && forall j :: 0 <= j < i ==> fold(words[j]) != l.key
  }

  lemma ListedFirstMore(l: Listed, init: seq<string>, word: string, fold: string -> Bytes)
    requires ListedFirst(l, init, fold)
    ensures ListedFirst(l, init + [word], fold)
  {
    var i :| FirstAt(l, init, fold, i);
    assert FirstAt(l, init + [word], fold, i);
  }

  /** Keys are listed once, each the fold of its own surface, which is the first word with that key. */
  lemma {:induction false} FirstListed(words: seq<string>, fold: string -> Bytes, admits: Bytes -> bool)
    ensures var listed := Deduplicated(words, fold, admits);
            && KeysDistinct(listed) && (forall l :: l in listed ==> ListedFirst(l, words, fold) && admits(l.key))
            && (forall w :: w in words && admits(fold(w)) ==> fold(w) in Keys(listed))
    decreases |words|
  {
    if words == [] {
    } else {
      var init, word := words[..|words| - 1], words[|words| - 1];
      assert words == init + [word];
      FirstListed(init, fold, admits);
      var before := Deduplicated(init, fold, admits);
      forall l | l in Deduplicated(words, fold, admits)
        ensures ListedFirst(l, words, fold) && admits(l.key)
      {
        if l in before {
          ListedFirstMore(l, init, word, fold);
        } else {
          assert FirstAt(l, words, fold, |init|) by {
            forall j | 0 <= j < |init|
              ensures fold(words[j]) != l.key
            {
              assert words[j] == init[j] && init[j] in init;
            }
          }
        }
      }
      forall w | w in words && admits(fold(w))
        ensures fold(w) in Keys(Deduplicated(words, fold, admits))
      {
        if w in init {
          assert fold(w) in Keys(before);
          assert Keys(before) <= Keys(Deduplicated(words, fold, admits));
        }
      }
    }
  }

  /** `surface.index(word)`. */
  function IndexOfSurface(listed: seq<Listed>, word: string): nat
    requires exists i :: 0 <= i < |listed| && listed[i].surface == word
  {
    if listed[0].surface == word then 0 else IndexOfSurface(listed[1..], word) + 1
  }

  /** Since a word has one fold, no surface is listed twice, and looking a kept word up by its
      surface finds its own key. */
  lemma {:induction false} SurfaceFindsItself(listed: seq<Listed>, fold: string -> Bytes, i: nat)
    requires KeysDistinct(listed) && (forall k :: 0 <= k < |listed| ==> fold(listed[k].surface) == listed[k].key) && i < |listed|
    ensures IndexOfSurface(listed, listed[i].surface) == i
    decreases |listed|
  {
    if i > 0 {
      assert listed[0].surface != listed[i].surface;
      assert listed[1..][i - 1] == listed[i];
      SurfaceFindsItself(listed[1..], fold, i - 1);
    }
  }

  /** The rows of the table: every listed word the teacher has a vector for. */
  function Rows(listed: seq<Listed>, embed: string -> Option<seq<real>>): seq<Row> {
    if listed == [] then []
    else
      var init, last := Rows(listed[..|listed| - 1], embed), listed[|listed| - 1];
      var vector := embed(last.surface);
      if vector.Some? then init + [Row(last.key, vector.value)] else init
  }

  /** `embed` and the lookup by surface that pairs its vectors with keys again. */
  method Embed(listed: seq<Listed>, fold: string -> Bytes, embed: string -> Option<seq<real>>) returns (rows: seq<Row>)
    requires KeysDistinct(listed)
    requires forall k :: 0 <= k < |listed| ==> fold(listed[k].surface) == listed[k].key
    ensures rows == Rows(listed, embed)
  {
    rows := [];
    for i := 0 to |listed|
      invariant rows == Rows(listed[..i], embed)
    {
      TakeSnoc(listed, i);
      var vector := embed(listed[i].surface);
      if vector.Some? {
        SurfaceFindsItself(listed, fold, i);
        var key := listed[IndexOfSurface(listed, listed[i].surface)].key;
        rows := rows + [Row(key, vector.value)];
      }
    }
    TakeAll(listed);
  }

  /** The row is that of a listed word: its key, and the vector of its surface. */
  predicate RowOfListed(r: Row, listed: seq<Listed>, embed: string -> Option<seq<real>>) {
    exists l :: l in listed && l.key == r.word && embed(l.surface) == Some(r.vector)
  }

  lemma RowOfMore(r: Row, init: seq<Listed>, last: Listed, embed: string -> Option<seq<real>>)
    requires RowOfListed(r, init, embed)
    ensures RowOfListed(r, init + [last], embed)
  {
    var l :| l in init && l.key == r.word && embed(l.surface) == Some(r.vector);
    assert l in init + [last];
  }

  lemma KeyIsNew(r: Row, init: seq<Listed>, last: Listed, embed: string -> Option<seq<real>>)
    requires KeysDistinct(init + [last]) && RowOfListed(r, init, embed)
    ensures r.word != last.key
  {
    var l :| l in init && l.key == r.word && embed(l.surface) == Some(r.vector);
    var i :| 0 <= i < |init| && init[i] == l;
    assert (init + [last])[i] == l && (init + [last])[|init|] == last;
  }

  lemma {:induction false} RowsFrom(listed: seq<Listed>, embed: string -> Option<seq<real>>)
    requires KeysDistinct(listed)
    ensures WordsDistinct(Rows(listed, embed))
    ensures forall r :: r in Rows(listed, embed) ==> RowOfListed(r, listed, embed)
    decreases |listed|
  {
    if listed == [] {
    } else {
      var init, last := listed[..|listed| - 1], listed[|listed| - 1];
      assert listed == init + [last];
      assert KeysDistinct(init) by {
        assert forall i :: 0 <= i < |init| ==> init[i] == listed[i];
      }
      RowsFrom(init, embed);
      forall r | r in Rows(init, embed)
        ensures r.word != last.key && RowOfListed(r, listed, embed)
      {
        KeyIsNew(r, init, last, embed);
        RowOfMore(r, init, last, embed);
      }
      assert last in listed;
    }
  }

  /** What the embedding and the word list must be: UTF-8 keys, vectors of one width. */
  ghost predicate Embeddable(listed: seq<Listed>, embed: string -> Option<seq<real>>, dims: nat, utf8: Bytes -> bool) {
    forall l :: l in listed ==> utf8(l.key) && (embed(l.surface).Some? ==> |embed(l.surface).value| == dims)
  }

  /** Rows of one vocabulary, in any order: those of the first words with their keys, none missing
      that the teacher has a vector for. */
  lemma RowsListed(words: seq<string>, fold: string -> Bytes, admits: Bytes -> bool, embed: string -> Option<seq<real>>, rows: seq<Row>)
    requires forall r :: r in rows <==> r in Rows(Deduplicated(words, fold, admits), embed)
    ensures forall r :: r in rows ==> FromList(r, words, fold, embed)
    ensures forall w :: w in words && admits(fold(w)) ==> FoundUnlessUntaught(rows, words, fold, embed, fold(w))
  {
    var listed := Deduplicated(words, fold, admits);
    FirstListed(words, fold, admits);
    RowsFrom(listed, embed);
    forall r | r in rows
      ensures FromList(r, words, fold, embed)
    {
      var l :| l in listed && l.key == r.word && embed(l.surface) == Some(r.vector);
      assert ListedFirst(l, words, fold);
    }
    forall w | w in words && admits(fold(w))
      ensures FoundUnlessUntaught(rows, words, fold, embed, fold(w))
    {
      var l :| l in listed && l.key == fold(w);
      assert ListedFirst(l, words, fold);
      RowsHave(listed, embed, l);
    }
  }

  /** From any word list: the table is readable to its last byte, its words strictly increase, and
      every word the teacher knows comes back with the quantised vector of the surface it was first
      listed under. */
  lemma VocabularyReadsBack(words: seq<string>, fold: string -> Bytes, admits: Bytes -> bool, embed: string -> Option<seq<real>>,
                            dims: nat, model: Bytes, utf8: Bytes -> bool)
    requires var listed := Deduplicated(words, fold, admits);
             Embeddable(listed, embed, dims, utf8) && Fits(Sort(Rows(listed, embed), RowLe), dims, model) && dims > 0 && utf8(model)
    ensures var rows := Sort(Rows(Deduplicated(words, fold, admits), embed), RowLe);
            && Parse(Encoded(rows, dims, model), utf8) == Some(TableOf(rows, dims, model))
            && Strict(rows) && Wide(rows, dims)
            && multiset(rows) == multiset(Rows(Deduplicated(words, fold, admits), embed))
            && (forall r :: r in rows ==> FromList(r, words, fold, embed))
            && forall w :: w in words && admits(fold(w)) ==> FoundUnlessUntaught(rows, words, fold, embed, fold(w))
  {
    var listed := Deduplicated(words, fold, admits);
    var unsorted := Rows(listed, embed);
    var rows := Sort(unsorted, RowLe);
    FirstListed(words, fold, admits);
    RowsFrom(listed, embed);
    SortedRows(unsorted);
    SortKeepsDistinct(unsorted, rows);
    StrictIffDistinct(rows);
    RowsListed(words, fold, admits, embed, rows);
    forall r | r in rows
      ensures utf8(r.word) && |r.vector| == dims
    {
      var l :| l in listed && l.key == r.word && embed(l.surface) == Some(r.vector);
    }
    TableReadsBackIff(rows, dims, model, utf8);
  }

  /** The row's vector is that of the first word listed with the row's key. */
  ghost predicate FromList(r: Row, words: seq<string>, fold: string -> Bytes, embed: string -> Option<seq<real>>) {
    exists l :: ListedFirst(l, words, fold) && l.key == r.word && embed(l.surface) == Some(r.vector)
  }

  /** The key is in the table, unless the teacher has no vector for the first word with it. */
  ghost predicate FoundUnlessUntaught(rows: seq<Row>, words: seq<string>, fold: string -> Bytes, embed: string -> Option<seq<real>>,
                                      key: Bytes)
  {
    exists l :: ListedFirst(l, words, fold) && l.key == key
                && (embed(l.surface).Some? ==> Row(key, embed(l.surface).value) in rows)
  }

  lemma {:induction false} RowsHave(listed: seq<Listed>, embed: string -> Option<seq<real>>, l: Listed)
    requires l in listed
    ensures embed(l.surface).Some? ==> Row(l.key, embed(l.surface).value) in Rows(listed, embed)
    decreases |listed|
  {
    var init, last := listed[..|listed| - 1], listed[|listed| - 1];
    assert listed == init + [last];
    if l in init { RowsHave(init, embed, l); }
  }

  lemma SortKeepsDistinct(rows: seq<Row>, sorted: seq<Row>)
    requires WordsDistinct(rows) && multiset(sorted) == multiset(rows)
    ensures WordsDistinct(sorted)
  {
    forall i, j | 0 <= i < j < |sorted|
      ensures sorted[i].word != sorted[j].word
    {
      if sorted[i].word == sorted[j].word {
        assert sorted[i] in multiset(rows) && sorted[j] in multiset(rows);
        var x :| 0 <= x < |rows| && rows[x] == sorted[i];
        var y :| 0 <= y < |rows| && rows[y] == sorted[j];
        assert sorted[i] == sorted[j];
        assert !Repeats(rows);
        NoRepeatCounts(rows, sorted[i]);
        TwiceCounts(sorted, i, j);
      }
    }
  }
}
