/** Per-crate coverage floors: a ratchet that turns one way, and the judgement against it. */
module Ratchet {
  import opened Prelude
  import opened Ordering

  /** Covered lines and all lines of one crate. */
  datatype Coverage = Coverage(covered: nat, total: nat)

  type Measured = map<string, Coverage>

  type Floors = map<string, real>

  const TOLERANCE: real := 0.000000001

  function Percentage(c: Coverage): real
    requires c.total > 0
  {
    c.covered as real * 100.0 / c.total as real
  }

  function Larger(a: real, b: real): real { if a < b then b else a }

  /** The run says this crate is below the bar. */
  predicate Below(crate: string, measured: Measured, bar: real) {
    crate in measured && measured[crate].total > 0 && Percentage(measured[crate]) + TOLERANCE < bar
  }

  function Recorded(floors: Floors, crate: string): real {
    if crate in floors then floors[crate] else 0.0
  }

  /** Whole percents, rounded down. */
  function Rounded(c: Coverage): real
    requires c.total > 0
  {
    Percentage(c).Floor as real
  }

  function Turned(floors: Floors, crate: string, measured: Measured): real
    requires crate in measured && measured[crate].total > 0
  {
    Larger(Recorded(floors, crate), Rounded(measured[crate]))
  }

  /** `write_floors`, for the crates named so far. */
  function RatchetOver(floors: Floors, measured: Measured, bar: real, crates: set<string>): Floors {
    map crate | crate in floors.Keys + crates && (crate in floors || Below(crate, measured, bar)) ::
      if crate in crates && Below(crate, measured, bar) then Turned(floors, crate, measured) else floors[crate]
  }

  function Ratchet(floors: Floors, measured: Measured, bar: real): Floors {
    RatchetOver(floors, measured, bar, measured.Keys)
  }

  function Crates(measured: Measured): (r: seq<string>)
    ensures !Repeats(r) && |r| == |measured| && forall c :: c in r <==> c in measured
  {
    TextOrders();
    SortedSet(measured.Keys, TextLe)
  }

  function FirstCrates(measured: Measured, i: nat): set<string>
    requires i <= |measured|
  {
    set c | c in Crates(measured)[..i]
  }

  lemma RatchetStep(floors: Floors, measured: Measured, bar: real, i: nat)
    requires i < |measured|
    ensures var crate := Crates(measured)[i];
            var before := RatchetOver(floors, measured, bar, FirstCrates(measured, i));
            RatchetOver(floors, measured, bar, FirstCrates(measured, i + 1)) == TurnOne(before, crate, measured, bar)
  {
    TakeSnoc(Crates(measured), i);
    assert FirstCrates(measured, i + 1) == FirstCrates(measured, i) + {Crates(measured)[i]};
    assert Crates(measured)[i] !in FirstCrates(measured, i);
  }

  lemma RatchetNone(floors: Floors, measured: Measured, bar: real)
    ensures RatchetOver(floors, measured, bar, {}) == floors
  {
  }

  lemma RatchetEnds(floors: Floors, measured: Measured, bar: real)
    ensures RatchetOver(floors, measured, bar, FirstCrates(measured, 0)) == floors
    ensures FirstCrates(measured, |measured|) == measured.Keys
  {
    assert FirstCrates(measured, 0) == {};
    RatchetNone(floors, measured, bar);
    TakeAll(Crates(measured));
  }

  /** One crate of the loop. */
  function TurnOne(floors: Floors, crate: string, measured: Measured, bar: real): Floors {
    if Below(crate, measured, bar) then floors[crate := Larger(Recorded(floors, crate), Rounded(measured[crate]))] else floors
  }

  method WriteFloors(floors: Floors, measured: Measured, bar: real) returns (updated: Floors)
    ensures updated == Ratchet(floors, measured, bar)
  {
    RatchetEnds(floors, measured, bar);
    updated := floors;
    for i := 0 to |measured|
      invariant updated == RatchetOver(floors, measured, bar, FirstCrates(measured, i))
    {
      RatchetStep(floors, measured, bar, i);
      updated := TurnOne(updated, Crates(measured)[i], measured, bar);
    }
  }

  predicate WholePercents(floors: Floors) {
    forall c :: c in floors ==> floors[c] >= 0.0 && floors[c] == floors[c].Floor as real
  }

  /** What the ratchet records are whole percents, if what it starts from is. */
  lemma KeepsWhole(floors: Floors, measured: Measured, bar: real)
    requires WholePercents(floors)
    ensures WholePercents(Ratchet(floors, measured, bar))
  {
    forall c | c in Ratchet(floors, measured, bar)
      ensures var floor := Ratchet(floors, measured, bar)[c]; floor >= 0.0 && floor == floor.Floor as real
    {
      if Below(c, measured, bar) { assert Rounded(measured[c]) == Percentage(measured[c]).Floor as real; }
    }
  }

  /** The crates a run judges: all of them when the plan names none. */
  predicate Judged(crate: string, measured: Measured, enforce: Option<set<string>>) {
    crate in measured && measured[crate].total > 0 && (enforce.None? || crate in enforce.value)
  }

  predicate Fails(crate: string, measured: Measured, floors: Floors, bar: real, enforce: Option<set<string>>) {
    && Judged(crate, measured, enforce)
    && Percentage(measured[crate]) + TOLERANCE < (if crate in floors then floors[crate] else bar)
  }

  /** `enforce_floors`: the judged crates below their floor, or below the bar without one. */
  method EnforceFloors(measured: Measured, floors: Floors, bar: real, enforce: Option<set<string>>) returns (failures: seq<string>)
    ensures !Repeats(failures)
    ensures forall crate :: crate in failures <==> Fails(crate, measured, floors, bar, enforce)
  {
    failures := [];
    var crates := Crates(measured);
    for i := 0 to |crates|
      invariant !Repeats(failures)
      invariant forall crate :: crate in failures <==> crate in crates[..i] && Fails(crate, measured, floors, bar, enforce)
    {
      TakeSnoc(crates, i);
      assert crates[i] !in crates[..i];
      if Fails(crates[i], measured, floors, bar, enforce) {
        failures := failures + [crates[i]];
      }
    }
    TakeAll(crates);
  }

  // ---- the ratchet's laws ----

  /** Nothing recorded is ever lowered or dropped, and only crates below the bar move. */
  lemma NeverLowers(floors: Floors, measured: Measured, bar: real, crate: string)
    ensures crate in floors ==> crate in Ratchet(floors, measured, bar) && Ratchet(floors, measured, bar)[crate] >= floors[crate]
    ensures !Below(crate, measured, bar) ==>
              (crate in Ratchet(floors, measured, bar) <==> crate in floors)
    ensures !Below(crate, measured, bar) && crate in floors ==> Ratchet(floors, measured, bar)[crate] == floors[crate]
  {
  }

  function RatchetAll(floors: Floors, runs: seq<Measured>, bar: real): Floors {
    if runs == [] then floors else Ratchet(RatchetAll(floors, runs[..|runs| - 1], bar), runs[|runs| - 1], bar)
  }

  predicate SomeBelow(crate: string, runs: seq<Measured>, bar: real) {
    exists m :: m in runs && Below(crate, m, bar)
  }

  /** The largest of the old floor and every rounded measurement below the bar. */
  ghost predicate Highest(floor: real, old_: real, crate: string, runs: seq<Measured>, bar: real) {
    && floor >= old_ && (forall m :: m in runs && Below(crate, m, bar) ==> Rounded(m[crate]) <= floor)
    && (floor == old_ || exists m :: m in runs && Below(crate, m, bar) && Rounded(m[crate]) == floor)
  }

  lemma HighestMore(floor: real, old_: real, crate: string, init: seq<Measured>, last: Measured, bar: real)
    requires Highest(floor, old_, crate, init, bar)
    ensures Highest(if Below(crate, last, bar) then Larger(floor, Rounded(last[crate])) else floor, old_, crate, init + [last], bar)
  {
    var runs := init + [last];
    assert last in runs;
    if floor != old_ {
      var m :| m in init && Below(crate, m, bar) && Rounded(m[crate]) == floor;
      assert m in runs;
    }
  }

  lemma SomeBelowMore(crate: string, init: seq<Measured>, last: Measured, bar: real)
    ensures SomeBelow(crate, init + [last], bar) <==> SomeBelow(crate, init, bar) || Below(crate, last, bar)
  {
    var runs := init + [last];
    if SomeBelow(crate, init, bar) {
      var m :| m in init && Below(crate, m, bar);
      assert m in runs;
    }
    assert last in runs;
  }

  /** After any runs, a crate has a floor exactly when it had one or some run saw it below the bar,
      and the floor is the highest of the old one and those measurements. */
  lemma {:induction false} EndsAtHighest(floors: Floors, runs: seq<Measured>, bar: real, crate: string)
    ensures crate in RatchetAll(floors, runs, bar) <==> crate in floors || SomeBelow(crate, runs, bar)
    ensures Highest(Recorded(RatchetAll(floors, runs, bar), crate), Recorded(floors, crate), crate, runs, bar)
    decreases |runs|
  {
    if runs == [] {
    } else {
      var init, last := runs[..|runs| - 1], runs[|runs| - 1];
      assert runs == init + [last];
      EndsAtHighest(floors, init, bar, crate);
      HighestMore(Recorded(RatchetAll(floors, init, bar), crate), Recorded(floors, crate), crate, init, last, bar);
      SomeBelowMore(crate, init, last, bar);
    }
  }

  lemma HighestIsOne(a: real, b: real, old_: real, crate: string, runs: seq<Measured>, others: seq<Measured>, bar: real)
    requires forall m :: m in runs <==> m in others
    requires Highest(a, old_, crate, runs, bar) && Highest(b, old_, crate, others, bar)
    ensures a == b
  {
  }

  /** Runs may come in any order and any number of times: only which there were matters. */
  lemma RunsForgetOrder(floors: Floors, runs: seq<Measured>, others: seq<Measured>, bar: real)
    requires forall m :: m in runs <==> m in others
    ensures RatchetAll(floors, runs, bar) == RatchetAll(floors, others, bar)
  {
    var a, b := RatchetAll(floors, runs, bar), RatchetAll(floors, others, bar);
    forall crate
      ensures crate in a <==> crate in b
      ensures crate in a ==> a[crate] == b[crate]
    {
      EndsAtHighest(floors, runs, bar, crate);
      EndsAtHighest(floors, others, bar, crate);
      assert SomeBelow(crate, runs, bar) <==> SomeBelow(crate, others, bar);
      HighestIsOne(Recorded(a, crate), Recorded(b, crate), Recorded(floors, crate), crate, runs, others, bar);
    }
  }

  lemma RoundedBelow(c: Coverage)
    requires c.total > 0
    ensures Rounded(c) <= Percentage(c)
  {
  }

  /** Enforcing a measurement right after recording it fails exactly where an older floor is above
      it; from empty floors it never fails. */
  lemma BaselineFailsIff(floors: Floors, measured: Measured, bar: real, enforce: Option<set<string>>, crate: string)
    ensures Fails(crate, measured, Ratchet(floors, measured, bar), bar, enforce) <==>
            Judged(crate, measured, enforce) && crate in floors && Percentage(measured[crate]) + TOLERANCE < floors[crate]
  {
    if Judged(crate, measured, enforce) { RoundedBelow(measured[crate]); }
  }
}
