/**
 * Bundles: the portable text of an event stream, and the stream kept open at its end.
 * A text is modelled by its parse: the header line and the decoded events.
 */
module Bundles {
  import opened Prelude

  const NODE_CARDS: string := "node_cards"

  const BUNDLE_FORMAT: nat := 3

  /** What an event's payload says about an authored node card. */
  datatype CardContent =
    | NoCard
    | Card(node: string, language: string, cardRevision: nat, baseline: bool)
    | BadCard

  datatype Event = Event(
    root: string, role: string, revision: nat, contentHash: string, occurredMs: nat, card: CardContent)

  /** A content-addressed identifier, or one an operator chose. */
  datatype SnapshotId = Content(digest: seq<Event>) | Named(name: string)

  /** The header line. The digest is modelled by what it digests: it is injective. */
  datatype Header = Header(
    bundleFormat: nat, eventFormat: nat, eventCount: nat, snapshotId: SnapshotId, createdMs: nat,
    range: Option<(nat, nat)>, abouts: set<string>, digest: seq<Event>)

  /** The text of a bundle file: decodable line by line, or not. */
  datatype Text = Bundle(header: Header, events: seq<Event>) | Undecodable

  function EventRange(count: nat): Option<(nat, nat)> {
    if count == 0 then None else Some((1, count))
  }

  function Abouts(events: seq<Event>): set<string> {
    set e | e in events :: e.root
  }

  // ---- the open stream ----

  datatype HeadStream = HeadStream(
    payload: seq<Event>, eventCount: nat, abouts: set<string>, newest: Option<nat>, carriesCards: bool)
  {
    /** One turn of the loop in `extend`. */
    function Push(e: Event): HeadStream {
      HeadStream(
        payload + [e],
        eventCount + 1,
        abouts + {e.root},
        match newest { case None => Some(e.occurredMs) case Some(n) => Some(if n < e.occurredMs then e.occurredMs else n) },
        carriesCards || e.role == NODE_CARDS)
    }

    function Extend(events: seq<Event>): HeadStream
      decreases |events|
    {
      if events == [] then this else Push(events[0]).Extend(events[1..])
    }

    function HeadHeader(): Header {
      Header(
        BUNDLE_FORMAT, if carriesCards then 3 else 2, eventCount, Content(payload),
        match newest { case None => 1 case Some(n) => n },
        EventRange(eventCount), abouts, payload)
    }

    /** The content-addressed head bundle. */
    function Encode(): Text {
      Bundle(HeadHeader(), payload)
    }
  }

  const EMPTY_STREAM: HeadStream := HeadStream([], 0, {}, None, false)

  function StreamOf(events: seq<Event>): HeadStream {
    EMPTY_STREAM.Extend(events)
  }

  /** Extending in two goes is extending in one. */
  lemma {:induction false} ExtendAppend(stream: HeadStream, left: seq<Event>, right: seq<Event>)
    ensures stream.Extend(left).Extend(right) == stream.Extend(left + right)
    decreases |left|
  {
    if left == [] {
      assert left + right == right;
    } else {
      assert (left + right)[1..] == left[1..] + right;
      ExtendAppend(stream.Push(left[0]), left[1..], right);
    }
  }

  /** A stream extended by the events a write added is the stream built from the whole log. */
  lemma StreamAppend(left: seq<Event>, right: seq<Event>)
    ensures StreamOf(left).Extend(right) == StreamOf(left + right)
  {
    ExtendAppend(EMPTY_STREAM, left, right);
  }

  lemma StreamSnoc(events: seq<Event>, e: Event)
    ensures StreamOf(events + [e]) == StreamOf(events).Push(e)
  {
    StreamAppend(events, [e]);
    assert [e][1..] == [];
    assert StreamOf(events).Extend([e]) == StreamOf(events).Push(e).Extend([]);
  }

  /** The newest event time of a non-empty history. */
  function Newest(events: seq<Event>): (n: Option<nat>)
    ensures n.None? <==> events == []
    ensures n.Some? ==> exists e :: e in events && e.occurredMs == n.value
    ensures n.Some? ==> forall e :: e in events ==> e.occurredMs <= n.value
  {
    if events == [] then None
    else
      var last := events[|events| - 1];
      var before := Newest(events[..|events| - 1]);
      assert events == events[..|events| - 1] + [last];
      match before
      case None => Some(last.occurredMs)
      case Some(n) => Some(if n < last.occurredMs then last.occurredMs else n)
  }

  /** What the five fields kept event by event amount to, read off the whole history. */
  lemma {:induction false} StreamFields(events: seq<Event>)
    ensures StreamOf(events).payload == events
    ensures StreamOf(events).eventCount == |events|
    ensures StreamOf(events).abouts == Abouts(events)
    ensures StreamOf(events).newest == Newest(events)
    ensures StreamOf(events).carriesCards <==> exists e :: e in events && e.role == NODE_CARDS
  {
    if events == [] {
    } else {
      var init, last := events[..|events| - 1], events[|events| - 1];
      assert events == init + [last];
      StreamFields(init);
      StreamSnoc(init, last);
    }
  }

  /** A stream keeps its events. */
  lemma StreamPayload(events: seq<Event>)
    ensures StreamOf(events).payload == events
  {
    StreamFields(events);
  }

  // ---- reading a bundle ----

  type CardHeads = map<(string, string, string), nat>

  /** `NodeCardEvent::card`: the card an event carries, none, or a refusal. */
  function CardOf(e: Event): Result<CardContent, PortError> {
    if e.role != NODE_CARDS then
      if e.card == NoCard then Ok(NoCard) else Err(InvalidState)
    else
      if e.card.Card? && e.root != "" then Ok(e.card) else Err(InvalidState)
  }

  /** The newest revision of each card after a history, unless some card's history has a hole. */
  function CardHeadsOf(events: seq<Event>): Option<CardHeads> {
    if events == [] then Some(map[])
    else
      match CardHeadsOf(events[..|events| - 1])
      case None => None
      case Some(heads) => NextCardHeads(heads, events[|events| - 1])
  }

  function NextCardHeads(heads: CardHeads, e: Event): Option<CardHeads> {
    match CardOf(e)
    case Err(_) => None
    case Ok(NoCard) => Some(heads)
    case Ok(BadCard) => None
    case Ok(Card(node, language, revision, baseline)) =>
      var identity := (e.root, node, language);
      var valid :=
        if identity in heads then !baseline && heads[identity] + 1 == revision
        else baseline || revision == 1;
      if valid then Some(heads[identity := revision]) else None
  }

  predicate BlankName(name: string) {
    forall c :: c in name ==> c == ' '
  }

  /** `parse_bundle` with `validate_header`: the events of a bundle that proves itself. */
  function Parse(text: Text): Result<seq<Event>, PortError> {
    if text.Undecodable? then Err(InvalidState)
    else
      var h, events := text.header, text.events;
      if h.bundleFormat != BUNDLE_FORMAT then Err(InvalidState)
      else if h.eventFormat != 2 && h.eventFormat != 3 then Err(InvalidState)
      else if |events| != h.eventCount then Err(InvalidState)
      else if h.eventFormat < 3 && exists e :: e in events && e.role == NODE_CARDS then Err(InvalidState)
      else if CardHeadsOf(events).None? then Err(InvalidState)
      else if h.snapshotId.Named? && BlankName(h.snapshotId.name) then Err(InvalidState)
      else if h.createdMs == 0 then Err(InvalidState)
      else if h.range != EventRange(|events|) then Err(InvalidState)
      else if h.abouts != Abouts(events) then Err(InvalidState)
      else if h.digest != events then Err(InvalidState)
      else Ok(events)
  }

  /** The histories whose head bundle proves itself when it is read back. */
  predicate Provable(events: seq<Event>) {
    && CardHeadsOf(events).Some?
    && (events != [] ==> exists e :: e in events && e.occurredMs > 0)
  }

  /** A head bundle reads back as its events, unless a card history has a hole or every event
      is dated at the epoch: those two bundles are written but never accepted again. */
  lemma HeadBundleReadsBack(events: seq<Event>)
    ensures Parse(StreamOf(events).Encode()) == if Provable(events) then Ok(events) else Err(InvalidState)
  {
    StreamFields(events);
  }

  lemma EncodeInjective(left: seq<Event>, right: seq<Event>)
    requires StreamOf(left).Encode() == StreamOf(right).Encode()
    ensures left == right
  {
    StreamPayload(left);
    StreamPayload(right);
  }

  // ---- authored memory ----

  /** Every event but those of the excluded abouts, in order. */
  function Excluding(events: seq<Event>, excluded: set<string>): (r: seq<Event>)
    ensures forall e :: e in r <==> e in events && e.root !in excluded
  {
    if events == [] then []
    else
      var init, last := Excluding(events[..|events| - 1], excluded), events[|events| - 1];
      assert events == events[..|events| - 1] + [last];
      if last.root in excluded then init else init + [last]
  }

  lemma {:induction false} ExcludingAppend(left: seq<Event>, right: seq<Event>, excluded: set<string>)
    ensures Excluding(left + right, excluded) == Excluding(left, excluded) + Excluding(right, excluded)
    decreases |right|
  {
    if right == [] {
      assert left + right == left;
    } else {
      var init := right[..|right| - 1];
      assert (left + right)[..|left + right| - 1] == left + init;
      ExcludingAppend(left, init, excluded);
    }
  }

  lemma {:induction false} ExcludingIdle(events: seq<Event>, excluded: set<string>)
    requires forall e :: e in events ==> e.root !in excluded
    ensures Excluding(events, excluded) == events
  {
    if events == [] {
    } else {
      var init, last := events[..|events| - 1], events[|events| - 1];
      assert events == init + [last];
      assert forall e :: e in init ==> e in events;
      assert last in events;
      ExcludingIdle(init, excluded);
    }
  }

  lemma ExcludingTwice(events: seq<Event>, excluded: set<string>)
    ensures Excluding(Excluding(events, excluded), excluded) == Excluding(events, excluded)
  {
    ExcludingIdle(Excluding(events, excluded), excluded);
  }

  /** `bundle_excluding_abouts`: the bundle-side filter. */
  function BundleExcluding(text: Text, excluded: set<string>): Result<Text, PortError> {
    match Parse(text)
    case Err(e) => Err(e)
    case Ok(events) => Ok(StreamOf(Excluding(events, excluded)).Encode())
  }

  // ---- merging ----

  /** Where two histories first differ. */
  function FirstDifference(left: seq<Event>, right: seq<Event>, from: nat): (at: Option<nat>)
    requires from <= |left| && from <= |right|
    ensures at.None? ==> forall i :: from <= i < |left| && i < |right| ==> left[i] == right[i]
    ensures at.Some? ==> from <= at.value < |left| && at.value < |right| && left[at.value] != right[at.value]
    decreases |left| - from
  {
    if from == |left| || from == |right| then None
    else if left[from] != right[from] then Some(from)
    else FirstDifference(left, right, from + 1)
  }

  /** `merge_bundles`: the longer of two histories, when one continues the other. */
  function Merge(left: Text, right: Text): Result<seq<Event>, PortError> {
    match Parse(left)
    case Err(e) => Err(e)
    case Ok(l) =>
      match Parse(right)
      case Err(e) => Err(e)
      case Ok(r) =>
        if FirstDifference(l, r, 0).Some? then Err(Conflict)
        else if |l| >= |r| then Ok(l) else Ok(r)
  }

  /** Merging succeeds exactly on two readable histories of which one is a prefix of the other. */
  lemma MergeIffPrefix(left: Text, right: Text)
    ensures Merge(left, right).Ok? <==>
              && Parse(left).Ok? && Parse(right).Ok?
              && (Parse(left).value <= Parse(right).value || Parse(right).value <= Parse(left).value)
    ensures Merge(left, right).Ok? ==>
              Merge(left, right).value in {Parse(left).value, Parse(right).value}
              && Parse(left).value <= Merge(left, right).value && Parse(right).value <= Merge(left, right).value
  {
    if Parse(left).Ok? && Parse(right).Ok? {
      var l, r := Parse(left).value, Parse(right).value;
      var at := FirstDifference(l, r, 0);
      if at.Some? {
        assert l[at.value] != r[at.value];
      }
    }
  }
}
