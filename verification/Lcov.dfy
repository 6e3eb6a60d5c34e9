/** LCOV line records: read, merged by maximum, printed. */
module Lcov {
  import opened Prelude
  import opened Ordering
  import opened Text

  type Lines = map<int, int>

  type Records = map<string, Lines>

  function Max(a: int, b: int): int { if a < b then b else a }

  function LinesOf(records: Records, source: string): Lines {
    if source in records then records[source] else map[]
  }

  function CountAt(lines: Lines, number: int): int {
    if number in lines then lines[number] else 0
  }

  // ---- reading ----

  datatype Reading = Reading(records: Records, source: Option<string>)

  /** `records[source][n] = max(records[source].get(n, 0), count)`. */
  function Count(records: Records, source: string, number: int, count: int): Records {
    var lines := LinesOf(records, source);
    records[source := lines[number := Max(CountAt(lines, number), count)]]
  }

  function CountLine(state: Reading, line: string): Result<Reading, Refusal>
    requires state.source.Some?
  {
    var fields := Fields(line);
    if |fields| < 2 then Err(ValueError)
    else
      var number, count := ParseInt(fields[0]), ParseInt(fields[1]);
      if number.None? || count.None? then Err(ValueError)
      else Ok(state.(records := Count(state.records, state.source.value, number.value, count.value)))
  }

  function ReadLine(state: Reading, line: string): Result<Reading, Refusal> {
    if "SF:" <= line then Ok(state.(source := Some(line[3..])))
    else if "DA:" <= line then if state.source.None? then Err(ValueError) else CountLine(state, line[3..])
    else if line == "end_of_record" then Ok(state.(source := None))
    else Ok(state)
  }

  function ReadLines(state: Reading, lines: seq<string>): Result<Reading, Refusal>
    decreases |lines|
  {
    if lines == [] then Ok(state)
    else
      var next := ReadLine(state, lines[0]);
      if next.Err? then next else ReadLines(next.value, lines[1..])
  }

  /** `read_fragment`. */
  function Read(text: string): Result<Records, Refusal> {
    var read := ReadLines(Reading(map[], None), SplitLines(text));
    if read.Err? || read.value.records == map[] then Err(ValueError) else Ok(read.value.records)
  }

  method ReadFragment(text: string) returns (r: Result<Records, Refusal>)
    ensures r == Read(text)
  {
    var lines := SplitLines(text);
    var state := Reading(map[], None);
    var i := 0;
    while i < |lines|
      invariant 0 <= i <= |lines|
      invariant ReadLines(state, lines[i..]) == ReadLines(Reading(map[], None), lines)
    {
      assert lines[i..][1..] == lines[i + 1..];
      var next := ReadLine(state, lines[i]);
      if next.Err? {
        return Err(ValueError);
      }
      state, i := next.value, i + 1;
    }
    return if state.records == map[] then Err(ValueError) else Ok(state.records);
  }

  // ---- printing ----

  /** The lines a report is made of. */
  datatype Line = Title | File(source: string) | Data(number: int, count: int) | Found(lines: nat) | Hits(covered: nat) | End

  function Render(line: Line): string {
    match line
    case Title => "TN:KMP merged coverage"
    case File(source) => "SF:" + source
    case Data(number, count) => "DA:" + (Show(number) + "," + Show(count))
    case Found(n) => "LF:" + Show(n)
    case Hits(n) => "LH:" + Show(n)
    case End => "end_of_record"
  }

  function Rendered(lines: seq<Line>): (r: seq<string>)
    ensures |r| == |lines| && forall i :: 0 <= i < |r| ==> r[i] == Render(lines[i])
  {
    seq(|lines|, i requires 0 <= i < |lines| => Render(lines[i]))
  }

  predicate IntLe(a: int, b: int) { a <= b }

  function Numbers(lines: Lines): (r: seq<int>)
    ensures !Repeats(r) && |r| == |lines| && forall n :: n in r <==> n in lines
  {
    SortedSet(lines.Keys, IntLe)
  }

  function Sources(records: Records): (r: seq<string>)
    ensures !Repeats(r) && |r| == |records| && forall s :: s in r <==> s in records
  {
    TextOrders();
    SortedSet(records.Keys, TextLe)
  }

  function DataLines(lines: Lines, numbers: seq<int>): (r: seq<Line>)
    ensures |r| == |numbers| && forall i :: 0 <= i < |r| ==> r[i] == Data(numbers[i], CountAt(lines, numbers[i]))
  {
    seq(|numbers|, i requires 0 <= i < |numbers| => Data(numbers[i], CountAt(lines, numbers[i])))
  }

  function Covered(lines: Lines): nat {
    |set n | n in lines && lines[n] > 0|
  }

  function SourceLines(source: string, lines: Lines): seq<Line> {
    [Title, File(source)] + DataLines(lines, Numbers(lines)) + [Found(|lines|), Hits(Covered(lines)), End]
  }

  function ReportLines(records: Records, sources: seq<string>): seq<Line> {
    if sources == [] then []
    else ReportLines(records, sources[..|sources| - 1])
         + SourceLines(sources[|sources| - 1], LinesOf(records, sources[|sources| - 1]))
  }

  /** `write_lcov`: sources in order, the lines of each in order. */
  function Write(records: Records): string {
    Printed(Rendered(ReportLines(records, Sources(records))))
  }

  lemma RenderedAppend(a: seq<Line>, b: seq<Line>)
    ensures Rendered(a + b) == Rendered(a) + Rendered(b)
  {
  }

  method PrintLine(text: string, ghost done: seq<Line>, line: Line) returns (text': string)
    requires text == Printed(Rendered(done))
    ensures text' == Printed(Rendered(done + [line]))
  {
    RenderedAppend(done, [line]);
    assert Rendered([line]) == [Render(line)];
    PrintedSnoc(Rendered(done), Render(line));
    text' := text + (Render(line) + "\n");
  }

  method PrintData(text: string, ghost done: seq<Line>, lines: Lines, numbers: seq<int>) returns (text': string)
    requires text == Printed(Rendered(done))
    ensures text' == Printed(Rendered(done + DataLines(lines, numbers)))
  {
    text' := text;
    ghost var data := DataLines(lines, numbers);
    assert done + data[..0] == done;
    for i := 0 to |numbers|
      invariant text' == Printed(Rendered(done + data[..i]))
    {
      text' := PrintLine(text', done + data[..i], Data(numbers[i], CountAt(lines, numbers[i])));
      TakeSnoc(data, i);
      assert done + data[..i] + [data[i]] == done + data[..i + 1];
    }
    TakeAll(data);
  }

  method PrintHead(text: string, ghost done: seq<Line>, source: string) returns (text': string)
    requires text == Printed(Rendered(done))
    ensures text' == Printed(Rendered(done + [Title, File(source)]))
  {
    text' := PrintLine(text, done, Title);
    text' := PrintLine(text', done + [Title], File(source));
    assert done + [Title] + [File(source)] == done + [Title, File(source)];
  }

  method PrintTail(text: string, ghost done: seq<Line>, lines: nat, covered: nat) returns (text': string)
    requires text == Printed(Rendered(done))
    ensures text' == Printed(Rendered(done + [Found(lines), Hits(covered), End]))
  {
    text' := PrintLine(text, done, Found(lines));
    text' := PrintLine(text', done + [Found(lines)], Hits(covered));
    text' := PrintLine(text', done + [Found(lines)] + [Hits(covered)], End);
    assert done + [Found(lines)] + [Hits(covered)] + [End] == done + [Found(lines), Hits(covered), End];
  }

  method PrintSource(text: string, ghost done: seq<Line>, source: string, lines: Lines) returns (text': string)
    requires text == Printed(Rendered(done))
    ensures text' == Printed(Rendered(done + SourceLines(source, lines)))
  {
    ghost var head, data := [Title, File(source)], DataLines(lines, Numbers(lines));
    text' := PrintHead(text, done, source);
    text' := PrintData(text', done + head, lines, Numbers(lines));
    text' := PrintTail(text', done + head + data, |lines|, Covered(lines));
    SourceLinesAre(done, source, lines);
  }

  lemma SourceLinesAre(done: seq<Line>, source: string, lines: Lines)
    ensures done + SourceLines(source, lines) ==
            done + [Title, File(source)] + DataLines(lines, Numbers(lines)) + [Found(|lines|), Hits(Covered(lines)), End]
  {
  }

  method WriteLcov(records: Records) returns (text: string)
    ensures text == Write(records)
  {
    var sources := Sources(records);
    text := "";
    assert Rendered([]) == [];
    for i := 0 to |sources|
      invariant text == Printed(Rendered(ReportLines(records, sources[..i])))
    {
      TakeSnoc(sources, i);
      text := PrintSource(text, ReportLines(records, sources[..i]), sources[i], LinesOf(records, sources[i]));
    }
    TakeAll(sources);
  }

  // ---- reading what was printed ----

  /** What any reading leaves: at least one line for every source, no negative count, no name with
      a line break. */
  predicate WellFormed(records: Records) {
    forall s :: s in records ==> !HasBreak(s) && records[s] != map[] && NonNegative(records[s])
  }

  predicate NonNegative(lines: Lines) {
    forall n :: n in lines ==> lines[n] >= 0
  }

  predicate SourceOk(state: Reading) {
    state.source.Some? ==> !HasBreak(state.source.value)
  }

  lemma LineKeeps(state: Reading, line: string)
    requires WellFormed(state.records) && SourceOk(state) && !HasBreak(line)
    ensures ReadLine(state, line).Ok? ==> WellFormed(ReadLine(state, line).value.records) && SourceOk(ReadLine(state, line).value)
  {
    if "SF:" <= line {
      assert forall i :: 0 <= i < |line| - 3 ==> line[3..][i] == line[i + 3];
    }
  }

  lemma {:induction false} ReadKeeps(state: Reading, lines: seq<string>)
    requires WellFormed(state.records) && SourceOk(state) && BreakFree(lines)
    ensures ReadLines(state, lines).Ok? ==> WellFormed(ReadLines(state, lines).value.records)
    decreases |lines|
  {
    if lines == [] {
    } else {
      LineKeeps(state, lines[0]);
      var next := ReadLine(state, lines[0]);
      if next.Ok? { ReadKeeps(next.value, lines[1..]); }
    }
  }

  lemma ReadIsWellFormed(text: string)
    ensures Read(text).Ok? ==> WellFormed(Read(text).value) && Read(text).value != map[]
  {
    ReadKeeps(Reading(map[], None), SplitLines(text));
  }

  /** What a printed line does to the reader. */
  function Effect(state: Reading, line: Line): Reading {
    match line
    case File(source) => Reading(state.records, Some(source))
    case Data(number, count) =>
      if state.source.Some? then Reading(Count(state.records, state.source.value, number, count), state.source) else state
    case End => Reading(state.records, None)
    case _ => state
  }

  function Effects(state: Reading, lines: seq<Line>): Reading {
    if lines == [] then state else Effect(Effects(state, lines[..|lines| - 1]), lines[|lines| - 1])
  }

  lemma DataReadsBack(state: Reading, number: int, count: int)
    requires state.source.Some?
    ensures CountLine(state, Show(number) + "," + Show(count)) ==
            Ok(state.(records := Count(state.records, state.source.value, number, count)))
  {
    ShownPlain(number);
    ShownPlain(count);
    FieldsSplit(Show(number), Show(count));
    IntReadsBack(number);
    IntReadsBack(count);
  }

  lemma TagReads(state: Reading, text: string)
    ensures ReadLine(state, "LF:" + text) == Ok(state) && ReadLine(state, "LH:" + text) == Ok(state)
    ensures ReadLine(state, "SF:" + text) == Ok(state.(source := Some(text)))
    ensures ReadLine(state, "DA:" + text) == if state.source.None? then Err(ValueError) else CountLine(state, text)
  {
    assert ("LF:" + text)[0] == 'L' && ("LH:" + text)[0] == 'L' && ("DA:" + text)[0] == 'D';
    assert ("SF:" + text)[3..] == text && ("DA:" + text)[3..] == text;
  }

  /** A printed line does to the reader what it says. */
  lemma LineTakesEffect(state: Reading, line: Line)
    requires line.Data? ==> state.source.Some?
    ensures ReadLine(state, Render(line)) == Ok(Effect(state, line))
  {
    match line
    case Title => assert Render(line)[0] == 'T';
    case Found(n) => TagReads(state, Show(n));
    case Hits(n) => TagReads(state, Show(n));
    case End => assert Render(line)[0] == 'e';
    case File(source) => TagReads(state, source);
    case Data(number, count) =>
      TagReads(state, Show(number) + "," + Show(count));
      DataReadsBack(state, number, count);
  }

  lemma {:induction false} EffectsAppend(state: Reading, a: seq<Line>, b: seq<Line>)
    ensures Effects(state, a + b) == Effects(Effects(state, a), b)
    decreases |b|
  {
    if b == [] {
      assert a + b == a;
    } else {
      assert (a + b)[..|a + b| - 1] == a + b[..|b| - 1];
      EffectsAppend(state, a, b[..|b| - 1]);
    }
  }

  /** Every count is printed under its source. */
  predicate Placed(state: Reading, lines: seq<Line>)
    decreases |lines|
  {
    lines == [] || ((lines[0].Data? ==> state.source.Some?) && Placed(Effect(state, lines[0]), lines[1..]))
  }

  lemma {:induction false} LinesTakeEffect(state: Reading, lines: seq<Line>)
    requires Placed(state, lines)
    ensures ReadLines(state, Rendered(lines)) == Ok(Effects(state, lines))
    decreases |lines|
  {
    if lines == [] {
    } else {
      LineTakesEffect(state, lines[0]);
      assert Rendered(lines)[1..] == Rendered(lines[1..]);
      LinesTakeEffect(Effect(state, lines[0]), lines[1..]);
      assert lines == [lines[0]] + lines[1..];
      EffectsAppend(state, [lines[0]], lines[1..]);
      EffectsOne(state, lines[0]);
    }
  }

  lemma EffectsOne(state: Reading, line: Line)
    ensures Effects(state, [line]) == Effect(state, line)
  {
    assert [line][..0] == [];
  }

  lemma {:induction false} PlacedAppend(state: Reading, a: seq<Line>, b: seq<Line>)
    requires Placed(state, a) && Placed(Effects(state, a), b)
    ensures Placed(state, a + b)
    decreases |a|
  {
    if a == [] {
      assert a + b == b;
    } else {
      assert a == [a[0]] + a[1..] && (a + b)[1..] == a[1..] + b;
      EffectsAppend(state, [a[0]], a[1..]);
      EffectsOne(state, a[0]);
      PlacedAppend(Effect(state, a[0]), a[1..], b);
    }
  }

  function Restrict(lines: Lines, numbers: seq<int>): Lines {
    map n | n in lines && n in numbers :: lines[n]
  }

  /** The records once those lines of a new source are read. */
  function After(records: Records, source: string, lines: Lines, numbers: seq<int>): Records {
    if numbers == [] then records else records[source := Restrict(lines, numbers)]
  }

  lemma RestrictSnoc(lines: Lines, init: seq<int>, n: int)
    requires n in lines
    ensures Restrict(lines, init + [n]) == Restrict(lines, init)[n := lines[n]]
  {
  }

  lemma CountsOne(records: Records, source: string, lines: Lines, init: seq<int>, n: int)
    requires source !in records && n in lines && lines[n] >= 0 && n !in init
    ensures Count(After(records, source, lines, init), source, n, lines[n]) == After(records, source, lines, init + [n])
  {
    RestrictSnoc(lines, init, n);
    var before := After(records, source, lines, init);
    if init == [] {
      assert Restrict(lines, init) == map[];
    }
    assert LinesOf(before, source) == Restrict(lines, init);
    assert CountAt(LinesOf(before, source), n) == 0;
    assert records[source := Restrict(lines, init)][source := Restrict(lines, init + [n])] == records[source := Restrict(lines, init + [n])];
  }

  lemma DataSnoc(lines: Lines, init: seq<int>, n: int)
    ensures DataLines(lines, init + [n]) == DataLines(lines, init) + [Data(n, CountAt(lines, n))]
  {
  }

  lemma EffectsSnoc(state: Reading, init: seq<Line>, line: Line)
    ensures Effects(state, init + [line]) == Effect(Effects(state, init), line)
  {
    assert (init + [line])[..|init + [line]| - 1] == init;
  }

  lemma RepeatsSnoc<T>(init: seq<T>, x: T)
    requires !Repeats(init + [x])
    ensures !Repeats(init) && x !in init
  {
    var all := init + [x];
    assert all[|init|] == x && forall i :: 0 <= i < |init| ==> all[i] == init[i];
  }

  lemma {:induction false} DataTakesEffect(records: Records, source: string, lines: Lines, numbers: seq<int>)
    requires source !in records && NonNegative(lines) && !Repeats(numbers) && forall n :: n in numbers ==> n in lines
    ensures Effects(Reading(records, Some(source)), DataLines(lines, numbers)) ==
            Reading(After(records, source, lines, numbers), Some(source))
    decreases |numbers|
  {
    if numbers == [] {
    } else {
      var init, n := numbers[..|numbers| - 1], numbers[|numbers| - 1];
      assert numbers == init + [n];
      RepeatsSnoc(init, n);
      DataTakesEffect(records, source, lines, init);
      DataSnoc(lines, init, n);
      EffectsSnoc(Reading(records, Some(source)), DataLines(lines, init), Data(n, lines[n]));
      CountsOne(records, source, lines, init, n);
    }
  }

  lemma {:induction false} DataPlaced(state: Reading, lines: Lines, numbers: seq<int>)
    requires state.source.Some?
    ensures Placed(state, DataLines(lines, numbers))
    decreases |numbers|
  {
    if numbers == [] {
    } else {
      var data := DataLines(lines, numbers);
      assert data[1..] == DataLines(lines, numbers[1..]);
      DataPlaced(Effect(state, data[0]), lines, numbers[1..]);
    }
  }

  lemma HeadTakesEffect(records: Records, source: string)
    ensures Placed(Reading(records, None), [Title, File(source)])
    ensures Effects(Reading(records, None), [Title, File(source)]) == Reading(records, Some(source))
  {
    assert [Title, File(source)] == [Title] + [File(source)];
    EffectsSnoc(Reading(records, None), [Title], File(source));
    EffectsOne(Reading(records, None), Title);
    assert [Title, File(source)][1..] == [File(source)];
  }

  lemma TailTakesEffect(state: Reading, n: nat, covered: nat)
    ensures Placed(state, [Found(n), Hits(covered), End])
    ensures Effects(state, [Found(n), Hits(covered), End]) == Reading(state.records, None)
  {
    assert [Found(n), Hits(covered), End] == [Found(n)] + [Hits(covered)] + [End];
    EffectsSnoc(state, [Found(n)] + [Hits(covered)], End);
    EffectsSnoc(state, [Found(n)], Hits(covered));
    EffectsOne(state, Found(n));
    assert [Found(n), Hits(covered), End][1..] == [Hits(covered), End] && [Hits(covered), End][1..] == [End];
    assert Placed(state, [End]) && Placed(state, [Hits(covered), End]);
  }

  lemma AllNumbers(lines: Lines)
    requires lines != map[]
    ensures Numbers(lines) != [] && Restrict(lines, Numbers(lines)) == lines
  {
    if |lines| == 0 { NoLines(lines); }
  }

  lemma NoLines(lines: Lines)
    requires |lines| == 0
    ensures lines == map[]
  {
  }

  /** One source, read back after others. */
  lemma SourceTakesEffect(records: Records, source: string, lines: Lines)
    requires source !in records && lines != map[] && NonNegative(lines)
    ensures Placed(Reading(records, None), SourceLines(source, lines))
    ensures Effects(Reading(records, None), SourceLines(source, lines)) == Reading(records[source := lines], None)
  {
    var start, numbers := Reading(records, None), Numbers(lines);
    var head, data, tail := [Title, File(source)], DataLines(lines, numbers), [Found(|lines|), Hits(Covered(lines)), End];
    assert SourceLines(source, lines) == head + data + tail;
    AllNumbers(lines);
    HeadTakesEffect(records, source);
    DataTakesEffect(records, source, lines, numbers);
    DataPlaced(Reading(records, Some(source)), lines, numbers);
    TailTakesEffect(Reading(records[source := lines], Some(source)), |lines|, Covered(lines));
    PlacedAppend(start, head, data);
    EffectsAppend(start, head, data);
    PlacedAppend(start, head + data, tail);
    EffectsAppend(start, head + data, tail);
  }

  function Only(records: Records, sources: seq<string>): Records {
    map s | s in records && s in sources :: records[s]
  }

  lemma OnlySnoc(records: Records, init: seq<string>, s: string)
    requires s in records
    ensures Only(records, init + [s]) == Only(records, init)[s := records[s]]
  {
  }

  lemma ReportSnoc(records: Records, init: seq<string>, s: string)
    ensures ReportLines(records, init + [s]) == ReportLines(records, init) + SourceLines(s, LinesOf(records, s))
  {
    assert (init + [s])[..|init + [s]| - 1] == init;
  }

  lemma {:induction false} ReportTakesEffect(records: Records, sources: seq<string>)
    requires WellFormed(records) && !Repeats(sources) && forall s :: s in sources ==> s in records
    ensures Placed(Reading(map[], None), ReportLines(records, sources))
    ensures Effects(Reading(map[], None), ReportLines(records, sources)) == Reading(Only(records, sources), None)
    decreases |sources|
  {
    if sources != [] {
      var init, s := sources[..|sources| - 1], sources[|sources| - 1];
      assert sources == init + [s];
      RepeatsSnoc(init, s);
      ReportTakesEffect(records, init);
      SourceTakesEffect(Only(records, init), s, records[s]);
      ReportSnoc(records, init, s);
      PlacedAppend(Reading(map[], None), ReportLines(records, init), SourceLines(s, records[s]));
      EffectsAppend(Reading(map[], None), ReportLines(records, init), SourceLines(s, records[s]));
      OnlySnoc(records, init, s);
    } else {
      NothingYet(records);
    }
  }

  lemma NothingYet(records: Records)
    ensures Only(records, []) == map[]
  {
  }

  predicate PlainLine(line: Line) {
    line.File? ==> !HasBreak(line.source)
  }

  lemma PlainAppend(a: string, b: string)
    requires !HasBreak(a) && !HasBreak(b)
    ensures !HasBreak(a + b)
  {
  }

  lemma PlainRenders(line: Line)
    requires PlainLine(line)
    ensures !HasBreak(Render(line))
  {
    match line
    case File(source) => PlainAppend("SF:", source);
    case Data(number, count) => PlainData(number, count);
    case Found(n) => ShownPlain(n); PlainAppend("LF:", Show(n));
    case Hits(n) => ShownPlain(n); PlainAppend("LH:", Show(n));
    case _ =>
  }

  lemma PlainData(number: int, count: int)
    ensures !HasBreak(Render(Data(number, count)))
  {
    ShownPlain(number);
    ShownPlain(count);
    PlainAppend(Show(number), ",");
    PlainAppend(Show(number) + ",", Show(count));
    PlainAppend("DA:", Show(number) + "," + Show(count));
  }

  lemma SourcePlain(source: string, lines: Lines)
    requires !HasBreak(source)
    ensures forall line :: line in SourceLines(source, lines) ==> PlainLine(line)
  {
  }

  lemma {:induction false} ReportPlain(records: Records, sources: seq<string>)
    requires forall s :: s in sources ==> !HasBreak(s)
    ensures forall line :: line in ReportLines(records, sources) ==> PlainLine(line)
    decreases |sources|
  {
    if sources == [] {
    } else {
      var init, last := sources[..|sources| - 1], sources[|sources| - 1];
      assert forall s :: s in init ==> s in sources;
      ReportPlain(records, init);
      assert last in sources;
      SourcePlain(last, LinesOf(records, last));
    }
  }

  lemma PlainReadsBack(lines: seq<Line>)
    requires forall line :: line in lines ==> PlainLine(line)
    ensures SplitLines(Printed(Rendered(lines))) == Rendered(lines)
  {
    forall i | 0 <= i < |lines|
      ensures !HasBreak(Rendered(lines)[i])
    {
      assert lines[i] in lines;
      PlainRenders(lines[i]);
    }
    LinesReadBack(Rendered(lines));
  }

  lemma PrintedReadsBack(records: Records)
    requires WellFormed(records) && records != map[]
    ensures Read(Write(records)) == Ok(records)
  {
    var sources := Sources(records);
    var lines := ReportLines(records, sources);
    ReportPlain(records, sources);
    PlainReadsBack(lines);
    ReportTakesEffect(records, sources);
    LinesTakeEffect(Reading(map[], None), lines);
    OnlyAll(records, sources);
  }

  lemma OnlyAll(records: Records, sources: seq<string>)
    requires forall s :: s in sources <==> s in records
    ensures Only(records, sources) == records
  {
  }

  /** Printing and reading back gives the same records exactly when there are any, every source has
      a line and a name without a line break, and no count is negative. A source without lines is
      printed, but its record is read as nothing. */
  lemma PrintedReadsBackIff(records: Records)
    ensures Read(Write(records)) == Ok(records) <==> WellFormed(records) && records != map[]
  {
    if WellFormed(records) && records != map[] {
      PrintedReadsBack(records);
    } else {
      ReadIsWellFormed(Write(records));
    }
  }
}
