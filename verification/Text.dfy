/** Text as the scripts read and print it: lines, fields and whole numbers. */
module Text {
  import opened Prelude

  /** `str.isspace`, character by character. */
  predicate IsSpace(c: char) {
    var n := c as int;
    || 0x09 <= n <= 0x0D || 0x1C <= n <= 0x20 || n == 0x85 || n == 0xA0 || n == 0x1680
    || 0x2000 <= n <= 0x200A || n == 0x2028 || n == 0x2029 || n == 0x202F || n == 0x205F || n == 0x3000
  }

  // ---- lines ----

  /** The characters `str.splitlines` breaks at. */
  predicate IsBreak(c: char) {
    var n := c as int;
    0x0A <= n <= 0x0D || 0x1C <= n <= 0x1E || n == 0x85 || n == 0x2028 || n == 0x2029
  }

  predicate HasBreak(text: string) {
    exists i :: 0 <= i < |text| && IsBreak(text[i])
  }

  /** Where the first line ends. */
  function LineEnd(text: string): (end: nat)
    ensures end <= |text|
    ensures forall i :: 0 <= i < end ==> !IsBreak(text[i])
    ensures end == |text| || IsBreak(text[end])
  {
    if text == "" || IsBreak(text[0]) then 0
    else
      var rest := LineEnd(text[1..]);
      assert text[..rest + 1] == [text[0]] + text[1..][..rest];
      rest + 1
  }

  /** `str.splitlines`: a carriage return and the newline after it are one break. */
  function SplitLines(text: string): (lines: seq<string>)
    ensures forall i :: 0 <= i < |lines| ==> !HasBreak(lines[i])
    decreases |text|
  {
    if text == "" then []
    else
      var n := LineEnd(text);
      if n == |text| then [text]
      else
        var after := if text[n] as int == 0x0D && n + 1 < |text| && text[n + 1] as int == 0x0A then n + 2 else n + 1;
        [text[..n]] + SplitLines(text[after..])
  }

  lemma {:induction false} LineEndsAtBreak(line: string, rest: string)
    requires !HasBreak(line)
    ensures LineEnd(line + "\n" + rest) == |line|
  {
    var text := line + "\n" + rest;
    if line == "" {
      assert text[0] == '\n';
    } else {
      assert text[1..] == line[1..] + "\n" + rest;
      assert !IsBreak(line[0]);
      assert !HasBreak(line[1..]) by {
        assert forall i :: 0 <= i < |line| - 1 ==> line[1..][i] == line[i + 1];
      }
      LineEndsAtBreak(line[1..], rest);
    }
  }

  /** A printed line is read back as one line. */
  lemma LineReadsBack(line: string, rest: string)
    requires !HasBreak(line)
    ensures SplitLines(line + "\n" + rest) == [line] + SplitLines(rest)
  {
    var text := line + "\n" + rest;
    LineEndsAtBreak(line, rest);
    assert text[..|line|] == line && text[|line|] == '\n' && text[|line| + 1..] == rest;
  }

  /** Lines as `print` writes them. */
  function Printed(lines: seq<string>): string {
    if lines == [] then "" else lines[0] + "\n" + Printed(lines[1..])
  }

  lemma {:induction false} PrintedSnoc(lines: seq<string>, line: string)
    ensures Printed(lines + [line]) == Printed(lines) + (line + "\n")
  {
    var more := lines + [line];
    if lines == [] {
      assert more == [line] && more[1..] == [];
      assert Printed(more) == line + "\n" + "";
    } else {
      PrintedSnoc(lines[1..], line);
      assert more[0] == lines[0] && more[1..] == lines[1..] + [line];
    }
  }

  predicate BreakFree(lines: seq<string>) {
    forall i :: 0 <= i < |lines| ==> !HasBreak(lines[i])
  }

  /** Printing lines and splitting them again gives the lines, when none holds a break. */
  lemma {:induction false} LinesReadBack(lines: seq<string>)
    requires BreakFree(lines)
    ensures SplitLines(Printed(lines)) == lines
  {
    if lines == [] {
    } else {
      LinesReadBack(lines[1..]);
      LineReadsBack(lines[0], Printed(lines[1..]));
    }
  }

  // ---- fields ----

  /** `text.split(',')`. */
  function Fields(text: string): (fields: seq<string>)
    ensures |fields| >= 1
  {
    if text == "" then [""]
    else
      var rest := Fields(text[1..]);
      if text[0] == ',' then [""] + rest else [[text[0]] + rest[0]] + rest[1..]
  }

  lemma {:induction false} FieldsSplit(first: string, second: string)
    requires ',' !in first && ',' !in second
    ensures Fields(first + "," + second) == [first, second]
    decreases |first| + |second|
  {
    var text := first + "," + second;
    if first == "" {
      assert text[1..] == second;
      OneField(second);
    } else {
      assert text[1..] == first[1..] + "," + second;
      FieldsSplit(first[1..], second);
      assert first == [first[0]] + first[1..];
    }
  }

  lemma {:induction false} OneField(text: string)
    requires ',' !in text
    ensures Fields(text) == [text]
  {
    if text != "" {
      OneField(text[1..]);
      assert text == [text[0]] + text[1..];
    }
  }

  // ---- whole numbers ----

  predicate IsDigit(c: char) { '0' <= c <= '9' }

  function Digit(c: char): nat
    requires IsDigit(c)
  {
    c as int - '0' as int
  }

  /** `str(n)`. */
  function Decimal(n: nat): (text: string)
    ensures text != "" && forall i :: 0 <= i < |text| ==> IsDigit(text[i])
  {
    var last := ('0' as int + n % 10) as char;
    if n < 10 then [last] else Decimal(n / 10) + [last]
  }

  function Show(n: int): string {
    if n < 0 then "-" + Decimal(-n) else Decimal(n)
  }

  /** Digits, single underscores allowed between them. */
  function ParseDigits(text: string, value: nat, afterDigit: bool): Option<nat> {
    if text == "" then if afterDigit then Some(value) else None
    else if IsDigit(text[0]) then ParseDigits(text[1..], value * 10 + Digit(text[0]), true)
    else if text[0] == '_' && afterDigit then ParseDigits(text[1..], value, false)
    else None
  }

  function StripLeft(text: string): string {
    if text != "" && IsSpace(text[0]) then StripLeft(text[1..]) else text
  }

  function StripRight(text: string): string {
    if text != "" && IsSpace(text[|text| - 1]) then StripRight(text[..|text| - 1]) else text
  }

  /** `int(text)`, for ASCII digits. */
  function ParseInt(text: string): Option<int> {
    var t := StripRight(StripLeft(text));
    if t != "" && t[0] == '-' then
      var magnitude := ParseDigits(t[1..], 0, false);
      if magnitude.Some? then Some(0 - magnitude.value) else None
    else
      var digits := if t != "" && t[0] == '+' then t[1..] else t;
      var magnitude := ParseDigits(digits, 0, false);
      if magnitude.Some? then Some(magnitude.value) else None
  }

  predicate AllDigits(text: string) {
    forall i :: 0 <= i < |text| ==> IsDigit(text[i])
  }

  lemma {:induction false} ParseDigitsSnoc(init: string, last: char, value: nat, after: bool)
    requires AllDigits(init) && IsDigit(last)
    ensures init != "" || after ==> ParseDigits(init, value, after).Some?
    ensures init != "" || after ==>
              ParseDigits(init + [last], value, after) == Some(ParseDigits(init, value, after).value * 10 + Digit(last))
    ensures init == "" ==> ParseDigits(init + [last], value, after) == Some(value * 10 + Digit(last))
    decreases |init|
  {
    if init != "" {
      assert (init + [last])[1..] == init[1..] + [last];
      ParseDigitsSnoc(init[1..], last, value * 10 + Digit(init[0]), true);
    }
  }

  lemma {:induction false} DecimalParses(n: nat)
    ensures ParseDigits(Decimal(n), 0, false) == Some(n)
  {
    var last := ('0' as int + n % 10) as char;
    assert Digit(last) == n % 10;
    if n >= 10 {
      DecimalParses(n / 10);
      ParseDigitsSnoc(Decimal(n / 10), last, 0, false);
    } else {
      ParseDigitsSnoc("", last, 0, false);
      assert "" + [last] == [last];
    }
  }

  /** A printed number is read back as that number. */
  lemma IntReadsBack(n: int)
    ensures ParseInt(Show(n)) == Some(n)
  {
    var text := Show(n);
    assert !IsSpace(text[0]) && !IsSpace(text[|text| - 1]);
    if n < 0 {
      DecimalParses(-n);
      assert text[1..] == Decimal(-n);
    } else {
      DecimalParses(n);
      assert text[0] != '-' && text[0] != '+';
    }
  }

  lemma ShownPlain(n: int)
    ensures ',' !in Show(n) && !HasBreak(Show(n))
  {
    var digits := Decimal(if n < 0 then -n else n);
    forall i | 0 <= i < |Show(n)|
      ensures Show(n)[i] == '-' || IsDigit(Show(n)[i])
    {
      if n < 0 && i > 0 { assert Show(n)[i] == digits[i - 1]; }
    }
  }
}
