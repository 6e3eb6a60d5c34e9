/** The recorded floors as text: what the ratchet writes and the next run reads. */
module FloorsFile {
  import opened Prelude
  import opened Ordering
  import opened Text

  /** Floors are whole percents (`Ratchet.KeepsWhole`), printed as digits. */
  type Floors = map<string, nat>

  // ---- printing ----

  function Crates(floors: Floors): (r: seq<string>)
    ensures !Repeats(r) && forall c :: c in r <==> c in floors
  {
    TextOrders();
    SortedSet(floors.Keys, TextLe)
  }

  function FloorLine(crate: string, floor: nat): string {
    crate + "\t" + Decimal(floor)
  }

  function FloorLines(floors: Floors, crates: seq<string>): (r: seq<string>)
    requires forall c :: c in crates ==> c in floors
    ensures |r| == |crates| && forall i :: 0 <= i < |r| ==> r[i] == FloorLine(crates[i], floors[crates[i]])
  {
    seq(|crates|, i requires 0 <= i < |crates| => FloorLine(crates[i], floors[crates[i]]))
  }

  /** The comments and the header the file starts with. */
  function Print(preamble: seq<string>, floors: Floors): string {
    Printed(preamble + FloorLines(floors, Crates(floors)))
  }

  lemma PrintedNext(preamble: seq<string>, lines: seq<string>, i: nat)
    requires i < |lines|
    ensures Printed(preamble + lines[..i + 1]) == Printed(preamble + lines[..i]) + (lines[i] + "\n")
  {
    TakeSnoc(lines, i);
    PrintedSnoc(preamble + lines[..i], lines[i]);
    assert preamble + lines[..i + 1] == preamble + lines[..i] + [lines[i]];
  }

  /** The writing loop of `write_floors`. */
  method PrintFloors(preamble: seq<string>, floors: Floors) returns (text: string)
    ensures text == Print(preamble, floors)
  {
    var crates := Crates(floors);
    ghost var lines := FloorLines(floors, crates);
    text := Printed(preamble);
    assert preamble + lines[..0] == preamble;
    for i := 0 to |crates|
      invariant text == Printed(preamble + lines[..i])
    {
      PrintedNext(preamble, lines, i);
      assert crates[i] in crates;
      text := text + (FloorLine(crates[i], floors[crates[i]]) + "\n");
    }
    TakeAll(lines);
  }

  // ---- reading ----

  function Strip(text: string): string {
    StripRight(StripLeft(text))
  }

  /** `text.partition('\t')`: what stands before the first tab, and after it. */
  function Partition(text: string): (r: (string, string))
    ensures '\t' !in r.0 && |r.0| <= |text| && r.0 == text[..|r.0|]
  {
    if text == "" || text[0] == '\t' then ("", if text == "" then "" else text[1..])
    else
      var rest := Partition(text[1..]);
      assert [text[0]] + rest.0 == text[..|rest.0| + 1];
      ([text[0]] + rest.0, rest.1)
  }

  predicate Skipped(line: string) {
    line == "" || "#" <= line || "crate\t" <= line
  }

  function ReadLine(floors: map<string, real>, line: string, float: string -> Option<real>): Result<map<string, real>, Refusal> {
    if Skipped(line) then Ok(floors)
    else
      var (name, floor) := Partition(line);
      if float(floor).None? then Err(ValueError) else Ok(floors[Strip(name) := float(floor).value])
  }

  function ReadLines(lines: seq<string>, float: string -> Option<real>): Result<map<string, real>, Refusal> {
    if lines == [] then Ok(map[])
    else
      match ReadLines(lines[..|lines| - 1], float)
      case Err(e) => Err(e)
      case Ok(floors) => ReadLine(floors, lines[|lines| - 1], float)
  }

  method ReadFloors(text: string, float: string -> Option<real>) returns (r: Result<map<string, real>, Refusal>)
    ensures r == ReadLines(SplitLines(text), float)
  {
    var lines := SplitLines(text);
    var floors: map<string, real> := map[];
    for i := 0 to |lines|
      invariant ReadLines(lines[..i], float) == Ok(floors)
    {
      ReadSnoc(lines[..i], lines[i], float);
      TakeSnoc(lines, i);
      var next := ReadLine(floors, lines[i], float);
      if next.Err? {
        StaysRefused(lines, i + 1, float);
        return Err(ValueError);
      }
      floors := next.value;
    }
    TakeAll(lines);
    return Ok(floors);
  }

  lemma ReadSnoc(init: seq<string>, line: string, float: string -> Option<real>)
    ensures ReadLines(init + [line], float)
         == if ReadLines(init, float).Err? then ReadLines(init, float) else ReadLine(ReadLines(init, float).value, line, float)
  {
    assert (init + [line])[..|init|] == init;
  }

  lemma {:induction false} StaysRefused(lines: seq<string>, n: nat, float: string -> Option<real>)
    requires n <= |lines| && ReadLines(lines[..n], float).Err?
    ensures ReadLines(lines, float) == Err(ValueError)
    decreases |lines|
  {
    if n == |lines| {
      assert lines[..n] == lines;
      RefusedIs(lines, float);
    } else {
      assert lines[..|lines| - 1][..n] == lines[..n];
      StaysRefused(lines[..|lines| - 1], n, float);
    }
  }

  lemma RefusedIs(lines: seq<string>, float: string -> Option<real>)
    requires ReadLines(lines, float).Err?
    ensures ReadLines(lines, float) == Err(ValueError)
  {
  }

  // ---- which names come back ----

  /** A name that printing and splitting leave whole. */
  predicate Whole(crate: string) {
    !HasBreak(crate) && '\t' !in crate && Strip(crate) == crate
  }

  /** A name whose line is read as a comment or as the header. */
  predicate Hidden(crate: string) {
    "#" <= crate || crate == "crate"
  }

  lemma {:induction false} StripLeftIs(text: string)
    ensures var t := StripLeft(text); StripLeft(t) == t && |t| <= |text| && t == text[|text| - |t|..]
  {
    if text != "" && IsSpace(text[0]) {
      StripLeftIs(text[1..]);
      var t := StripLeft(text[1..]);
      assert text[1..][|text[1..]| - |t|..] == text[|text| - |t|..];
    }
  }

  lemma {:induction false} StripRightIs(text: string)
    ensures var t := StripRight(text); StripRight(t) == t && |t| <= |text| && t == text[..|t|]
    decreases |text|
  {
    if text != "" && IsSpace(text[|text| - 1]) {
      StripRightIs(text[..|text| - 1]);
      var t := StripRight(text[..|text| - 1]);
      assert text[..|text| - 1][..|t|] == text[..|t|];
    }
  }

  lemma StripOnce(text: string)
    ensures Strip(Strip(text)) == Strip(text)
    ensures forall c :: c in Strip(text) ==> c in text
  {
    var left := StripLeft(text);
    StripLeftIs(text);
    StripRightIs(left);
    var t := StripRight(left);
    if t != "" {
      assert t[0] == left[0];
      StripLeftIs(left[1..]);
    }
    assert StripLeft(t) == t;
  }

  lemma NameIsWhole(line: string)
    requires !HasBreak(line)
    ensures Whole(Strip(Partition(line).0))
  {
    var name := Partition(line).0;
    StripOnce(name);
    forall i | 0 <= i < |Strip(name)|
      ensures !IsBreak(Strip(name)[i])
    {
      assert Strip(name)[i] in name;
      var j :| 0 <= j < |name| && name[j] == Strip(name)[i];
      assert line[j] == name[j];
    }
  }

  /** Whatever is read, its names are whole. */
  lemma {:induction false} NamesAreWhole(lines: seq<string>, float: string -> Option<real>)
    requires BreakFree(lines) && ReadLines(lines, float).Ok?
    ensures forall c :: c in ReadLines(lines, float).value ==> Whole(c)
    decreases |lines|
  {
    if lines == [] {
    } else {
      var init, last := lines[..|lines| - 1], lines[|lines| - 1];
      NamesAreWhole(init, float);
      NameIsWhole(last);
    }
  }

  lemma {:induction false} PartitionJoined(name: string, floor: string)
    requires '\t' !in name
    ensures Partition(name + "\t" + floor) == (name, floor)
  {
    var text := name + "\t" + floor;
    if name == "" {
      assert text[1..] == floor;
    } else {
      assert text[1..] == name[1..] + "\t" + floor;
      PartitionJoined(name[1..], floor);
      assert [name[0]] + name[1..] == name;
    }
  }

  /** The reader takes a printed whole number for that number. */
  ghost predicate ReadsWhole(float: string -> Option<real>) {
    forall n: nat :: float(Decimal(n)) == Some(n as real)
  }

  lemma SkippedIff(crate: string, floor: nat)
    requires '\t' !in crate
    ensures Skipped(FloorLine(crate, floor)) <==> Hidden(crate)
  {
    var line := FloorLine(crate, floor);
    assert line == crate + "\t" + Decimal(floor);
    PartitionJoined(crate, Decimal(floor));
    if "crate\t" <= line {
      assert line == "crate" + "\t" + line[6..];
      PartitionJoined("crate", line[6..]);
    }
    if crate == "crate" { assert line[..6] == "crate\t"; }
    if "#" <= line {
      assert line[0] == '#';
      assert crate != "" && crate[0] == line[0];
    }
    if "#" <= crate { assert line[0] == crate[0]; }
  }

  /** The floors of these crates that are not hidden. */
  function Shown(floors: Floors, crates: seq<string>): map<string, real> {
    map c | c in crates && c in floors && !Hidden(c) :: floors[c] as real
  }

  lemma LineEffect(floors: Floors, init: seq<string>, crate: string, float: string -> Option<real>)
    requires ReadsWhole(float) && crate in floors && Whole(crate) && crate !in init
    ensures ReadLine(Shown(floors, init), FloorLine(crate, floors[crate]), float) == Ok(Shown(floors, init + [crate]))
  {
    var before, after := Shown(floors, init), Shown(floors, init + [crate]);
    assert after == if Hidden(crate) then before else before[crate := floors[crate] as real];
    SkippedIff(crate, floors[crate]);
    PartitionJoined(crate, Decimal(floors[crate]));
    assert float(Decimal(floors[crate])) == Some(floors[crate] as real);
    assert FloorLine(crate, floors[crate]) == crate + "\t" + Decimal(floors[crate]);
  }

  /** Lines the reader passes over. */
  predicate PreambleOk(preamble: seq<string>) {
    BreakFree(preamble) && forall i :: 0 <= i < |preamble| ==> Skipped(preamble[i])
  }

  lemma {:induction false} SkippedLines(lines: seq<string>, float: string -> Option<real>)
    requires forall i :: 0 <= i < |lines| ==> Skipped(lines[i])
    ensures ReadLines(lines, float) == Ok(map[])
    decreases |lines|
  {
    if lines == [] {
    } else {
      SkippedLines(lines[..|lines| - 1], float);
    }
  }

  lemma FloorLinesSnoc(floors: Floors, init: seq<string>, last: string)
    requires last in floors && forall c :: c in init ==> c in floors
    ensures FloorLines(floors, init + [last]) == FloorLines(floors, init) + [FloorLine(last, floors[last])]
  {
  }

  lemma LinesEffectMore(preamble: seq<string>, floors: Floors, init: seq<string>, last: string, float: string -> Option<real>)
    requires ReadsWhole(float) && last in floors && Whole(last) && last !in init && forall c :: c in init ==> c in floors
    requires ReadLines(preamble + FloorLines(floors, init), float) == Ok(Shown(floors, init))
    ensures ReadLines(preamble + FloorLines(floors, init + [last]), float) == Ok(Shown(floors, init + [last]))
  {
    var line, before := FloorLine(last, floors[last]), preamble + FloorLines(floors, init);
    FloorLinesSnoc(floors, init, last);
    assert preamble + (FloorLines(floors, init) + [line]) == before + [line];
    ReadSnoc(before, line, float);
    LineEffect(floors, init, last, float);
  }

  lemma NoRepeatSnoc(crates: seq<string>)
    requires crates != [] && !Repeats(crates)
    ensures !Repeats(crates[..|crates| - 1]) && crates[|crates| - 1] !in crates[..|crates| - 1]
  {
  }

  lemma {:induction false} LinesEffect(preamble: seq<string>, floors: Floors, crates: seq<string>, float: string -> Option<real>)
    requires ReadsWhole(float) && PreambleOk(preamble) && !Repeats(crates) && forall c :: c in crates ==> c in floors && Whole(c)
    ensures ReadLines(preamble + FloorLines(floors, crates), float) == Ok(Shown(floors, crates))
    decreases |crates|
  {
    if crates == [] {
      SkippedLines(preamble, float);
      assert preamble + FloorLines(floors, crates) == preamble;
    } else {
      var init, last := crates[..|crates| - 1], crates[|crates| - 1];
      NoRepeatSnoc(crates);
      LinesEffect(preamble, floors, init, float);
      LinesEffectMore(preamble, floors, init, last, float);
      assert crates == init + [last];
    }
  }

  lemma DigitsPlain(n: nat)
    ensures !HasBreak(Decimal(n))
  {
  }

  lemma LinePlain(crate: string, floor: nat)
    requires !HasBreak(crate)
    ensures !HasBreak(FloorLine(crate, floor))
  {
    var line := FloorLine(crate, floor);
    DigitsPlain(floor);
    forall i | 0 <= i < |line|
      ensures !IsBreak(line[i])
    {
      if i > |crate| { assert line[i] == Decimal(floor)[i - |crate| - 1]; }
    }
  }

  lemma WholeFloorsRead(preamble: seq<string>, floors: Floors, float: string -> Option<real>)
    requires ReadsWhole(float) && PreambleOk(preamble) && forall c :: c in floors ==> Whole(c)
    ensures ReadLines(SplitLines(Print(preamble, floors)), float) == Ok(Shown(floors, Crates(floors)))
  {
    var crates := Crates(floors);
    var lines := preamble + FloorLines(floors, crates);
    forall i | 0 <= i < |lines|
      ensures !HasBreak(lines[i])
    {
      if i >= |preamble| {
        var c := crates[i - |preamble|];
        assert c in crates;
        LinePlain(c, floors[c]);
      }
    }
    LinesReadBack(lines);
    LinesEffect(preamble, floors, crates, float);
  }

  lemma ShownIsAllIff(floors: Floors)
    ensures Shown(floors, Crates(floors)) == (map c | c in floors :: floors[c] as real) <==> forall c :: c in floors ==> !Hidden(c)
  {
    var shown := Shown(floors, Crates(floors));
    var all: map<string, real> := map c | c in floors :: floors[c] as real;
    assert forall c :: c in shown <==> c in floors && !Hidden(c);
    if shown == all {
      assert forall c :: c in floors ==> c in all;
    }
  }

  /** Recorded floors are read back as they were written exactly when every crate's name is whole and
      none is hidden: a name with a tab, a line break or space around it is cut, and a crate called
      `crate`, or one whose name starts like a comment, loses its floor. */
  lemma FloorsReadBackIff(preamble: seq<string>, floors: Floors, float: string -> Option<real>)
    requires ReadsWhole(float) && PreambleOk(preamble)
    ensures ReadLines(SplitLines(Print(preamble, floors)), float) == Ok(map c | c in floors :: floors[c] as real)
       <==> forall c :: c in floors ==> Whole(c) && !Hidden(c)
  {
    var all: map<string, real> := map c | c in floors :: floors[c] as real;
    var read := ReadLines(SplitLines(Print(preamble, floors)), float);
    if read == Ok(all) {
      NamesAreWhole(SplitLines(Print(preamble, floors)), float);
      assert forall c :: c in floors ==> c in all && Whole(c);
    }
    if forall c :: c in floors ==> Whole(c) {
      WholeFloorsRead(preamble, floors, float);
      ShownIsAllIff(floors);
    }
  }
}
