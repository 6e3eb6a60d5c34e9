/**
 * The fast path of a guarded write: what this process last published, checked and extended
 * from the tails of the log and of the committed file.
 */
module CommittedTails {
  import opened Prelude
  import opened Bundles

  // ---- the event log ----

  /** Slot k holds the event at position k + 1, if any: positions may have gaps. */
  type Slots = seq<Option<Event>>

  /** A log ends on an event: its last sequence is a key of the event table. */
  type Log = s: Slots | s == [] || s[|s| - 1].Some? witness []

  /** The event stored at a position; positions count from one. */
  function At(slots: Slots, position: nat): Option<Event> {
    if 1 <= position <= |slots| then slots[position - 1] else None
  }

  function EventsOf(slots: Slots): seq<Event> {
    if slots == [] then []
    else
      var init := EventsOf(slots[..|slots| - 1]);
      match slots[|slots| - 1]
      case None => init
      case Some(e) => init + [e]
  }

  /** The authored stream: the log's events without those of the excluded abouts. */
  function Authored(slots: Slots, excluded: set<string>): seq<Event> {
    Excluding(EventsOf(slots), excluded)
  }

  lemma {:induction false} EventsOfAppend(left: Slots, right: Slots)
    ensures EventsOf(left + right) == EventsOf(left) + EventsOf(right)
    decreases |right|
  {
    if right == [] {
      assert left + right == left;
    } else {
      var init := right[..|right| - 1];
      assert (left + right)[..|left + right| - 1] == left + init;
      EventsOfAppend(left, init);
    }
  }

  lemma AuthoredAppend(left: Slots, right: Slots, excluded: set<string>)
    ensures Authored(left + right, excluded) == Authored(left, excluded) + Authored(right, excluded)
  {
    EventsOfAppend(left, right);
    ExcludingAppend(EventsOf(left), EventsOf(right), excluded);
  }

  lemma AuthoredSnoc(slots: Slots, slot: Option<Event>, excluded: set<string>)
    ensures Authored(slots + [slot], excluded)
         == if slot.None? || slot.value.root in excluded then Authored(slots, excluded)
            else Authored(slots, excluded) + [slot.value]
  {
    AuthoredAppend(slots, [slot], excluded);
    assert [slot][..0] == [];
    assert EventsOf([slot]) == match slot case None => [] case Some(e) => [e];
    if slot.Some? {
      assert [slot.value][..0] == [];
      assert Excluding([slot.value], excluded) == if slot.value.root in excluded then [] else [slot.value];
    }
  }

  // ---- tails ----

  /** A log position and the aggregate, revision and content hash of the event there. */
  datatype LogTail = LogTail(position: nat, event: Option<(string, nat, string)>)

  function LogTailOf(position: nat, event: Option<Event>): LogTail {
    LogTail(position, match event { case None => None case Some(e) => Some((e.root, e.revision, e.contentHash)) })
  }

  datatype FileStamp = FileStamp(len: nat, modified: nat)

  /** One content of the committed path, with the length and time a reader of its metadata sees. */
  datatype Version = Version(text: Text, stamp: FileStamp)

  function StampOf(file: Option<Version>): Option<FileStamp> {
    match file
    case None => None
    case Some(v) => Some(v.stamp)
  }

  datatype ReadHead = ReadHead(log: LogTail, stream: HeadStream)

  datatype CommittedTail = CommittedTail(file: FileStamp, log: LogTail, stream: HeadStream)

  /** The authored head of a whole log: what a full export writes, and where the log stands. */
  function HeadOf(log: Slots, excluded: set<string>): ReadHead {
    ReadHead(LogTailOf(|log|, At(log, |log|)), StreamOf(Authored(log, excluded)))
  }

  /** `tail_at`: the log's tail, with its event only when it ends at `position`. */
  function TailAt(log: Log, position: nat): LogTail {
    if |log| != position then LogTailOf(|log|, None) else LogTailOf(|log|, At(log, |log|))
  }

  /** `holds`: the committed file and the store stand where this process left them. */
  predicate Holds(tail: CommittedTail, log: Log, file: Option<Version>) {
    StampOf(file) == Some(tail.file) && TailAt(log, tail.log.position) == tail.log
  }

  /** `file_is_ours`: unmoved, or rewritten with the same bytes. */
  predicate FileIsOurs(tail: CommittedTail, file: Option<Version>) {
    || StampOf(file) == Some(tail.file)
    || (file.Some? && file.value.text == tail.stream.Encode())
  }

  /** The event a tail ends on is still where it was. */
  predicate Continues(from: LogTail, log: Slots) {
    && from.position <= |log|
    && (from.position > 0 ==> LogTailOf(from.position, At(log, from.position)) == from)
  }

  /** `ReadHead::read`. */
  method Read(log: Log, excluded: set<string>) returns (head: ReadHead)
    ensures head == HeadOf(log, excluded)
  {
    var last := |log|;
    var stream := EMPTY_STREAM;
    var tail: Option<Event> := None;
    var position := 1;
    while position <= last
      invariant 1 <= position <= last + 1
      invariant stream == StreamOf(Authored(log[..position - 1], excluded))
      invariant tail == if position == last + 1 then At(log, last) else None
    {
      ghost var seen := log[..position - 1];
      assert log[..position] == seen + [At(log, position)];
      AuthoredSnoc(seen, At(log, position), excluded);
      match At(log, position) {
        case None =>
        case Some(event) =>
          if event.root !in excluded {
            StreamSnoc(Authored(seen, excluded), event);
            stream := stream.Push(event);
          }
          if position == last {
            tail := Some(event);
          }
      }
      position := position + 1;
    }
    assert log[..last] == log;
    head := ReadHead(LogTailOf(last, tail), stream);
  }

  /** The stream a tail leaves, pushed over the events after it, up to a position. */
  function StreamUpTo(from: CommittedTail, log: Log, excluded: set<string>, position: nat): HeadStream
    requires from.log.position <= position <= |log|
  {
    from.stream.Extend(Authored(log[from.log.position..position], excluded))
  }

  lemma StreamUpToNext(from: CommittedTail, log: Log, excluded: set<string>, position: nat)
    requires from.log.position < position <= |log|
    ensures StreamUpTo(from, log, excluded, position) ==
            match At(log, position)
            case None => StreamUpTo(from, log, excluded, position - 1)
            case Some(event) =>
              if event.root in excluded then StreamUpTo(from, log, excluded, position - 1)
              else StreamUpTo(from, log, excluded, position - 1).Push(event)
  {
    var seen := log[from.log.position..position - 1];
    assert log[from.log.position..position] == seen + [At(log, position)];
    AuthoredSnoc(seen, At(log, position), excluded);
    if At(log, position).Some? && At(log, position).value.root !in excluded {
      var event := At(log, position).value;
      ExtendAppend(from.stream, Authored(seen, excluded), [event]);
      assert [event][1..] == [];
    }
  }

  /** `extended`: the head this tail ends on, extended by what the log holds after it; nothing
      when the event the tail ends on is no longer there. */
  method Extended(from: CommittedTail, log: Log, excluded: set<string>) returns (head: Option<ReadHead>)
    ensures head.Some? <==> Continues(from.log, log)
    ensures head.Some? ==> head.value == ReadHead(
              LogTailOf(|log|, At(log, |log|)),
              from.stream.Extend(Authored(log[from.log.position..], excluded)))
  {
    var at := At(log, from.log.position);
    if from.log.position > 0 && LogTailOf(from.log.position, at) != from.log {
      return None;
    }
    var last := |log|;
    if last < from.log.position {
      return None;
    }
    var stream, tail, position := from.stream, at, from.log.position;
    assert log[position..position] == [];
    while position < last
      invariant from.log.position <= position <= last
      invariant stream == StreamUpTo(from, log, excluded, position)
      invariant At(log, position).Some? ==> tail == At(log, position)
      invariant position == from.log.position ==> tail == at
    {
      position := position + 1;
      StreamUpToNext(from, log, excluded, position);
      match At(log, position) {
        case None =>
        case Some(event) =>
          if event.root !in excluded {
            stream := stream.Push(event);
          }
          tail := Some(event);
      }
    }
    assert log[from.log.position..last] == log[from.log.position..];
    return Some(ReadHead(LogTailOf(last, tail), stream));
  }

  // ---- what a tail may be trusted for ----

  /** The tail remembers the authored head of a prefix of this log. */
  predicate Faithful(tail: CommittedTail, log: Slots, excluded: set<string>) {
    && tail.log.position <= |log|
    && tail.log == LogTailOf(tail.log.position, At(log, tail.log.position))
    && tail.stream == StreamOf(Authored(log[..tail.log.position], excluded))
  }

  /** Whoever rewrites the committed file with other bytes moves its length or its time. */
  predicate StampsTell(history: set<Version>) {
    forall u, v :: u in history && v in history && u.stamp == v.stamp ==> u.text == v.text
  }

  /** The tail's stamp was read off the bundle the tail encodes. */
  predicate Stamped(tail: CommittedTail, history: set<Version>) {
    Version(tail.stream.Encode(), tail.file) in history
  }

  /** A log only grows, so a faithful tail stays faithful. */
  lemma FaithfulGrows(tail: CommittedTail, log: Slots, more: Slots, excluded: set<string>)
    requires Faithful(tail, log, excluded)
    ensures Faithful(tail, log + more, excluded)
  {
    assert (log + more)[..tail.log.position] == log[..tail.log.position];
  }

  /** A tail extended over any later log, gaps and excluded events included, is the head a full
      read of that log would give. */
  lemma ExtensionIsHead(tail: CommittedTail, log: Log, excluded: set<string>)
    requires Faithful(tail, log, excluded)
    ensures Continues(tail.log, log)
    ensures ReadHead(LogTailOf(|log|, At(log, |log|)),
                     tail.stream.Extend(Authored(log[tail.log.position..], excluded))) == HeadOf(log, excluded)
  {
    var cut := tail.log.position;
    assert log[..cut] + log[cut..] == log;
    AuthoredAppend(log[..cut], log[cut..], excluded);
    StreamAppend(Authored(log[..cut], excluded), Authored(log[cut..], excluded));
  }

  /** Where a faithful tail holds, the committed file is the bundle of the whole authored log. */
  lemma HoldsMeansSame(tail: CommittedTail, log: Log, file: Option<Version>, history: set<Version>, excluded: set<string>)
    requires Faithful(tail, log, excluded) && Stamped(tail, history) && StampsTell(history)
    requires file.Some? ==> file.value in history
    requires Holds(tail, log, file)
    ensures tail.stream == StreamOf(Authored(log, excluded))
    ensures file.Some? && file.value.text == StreamOf(Authored(log, excluded)).Encode()
  {
    assert tail.log.position == |log|;
    assert log[..|log|] == log;
  }
}
