/** The full check of a guarded write, and what the fast check is worth against it. */
module SameHistory {
  import opened Prelude
  import opened Bundles
  import opened CommittedTails

  /** `prove_same_history`: the committed bundle as read and the live bundle as exported. */
  function ProveSameHistory(log: Log, file: Option<Version>, excluded: set<string>)
    : Result<(Option<Text>, Text), PortError>
  {
    var live := StreamOf(Authored(log, excluded)).Encode();
    match Parse(live)
    case Err(e) => Err(e)
    case Ok(liveEvents) =>
      match file
      case None => if |liveEvents| != 0 then Err(Conflict) else Ok((None, live))
      case Some(version) =>
        match BundleExcluding(version.text, excluded)
        case Err(e) => Err(InvalidState)
        case Ok(authored) =>
          match Parse(authored)
          case Err(e) => Err(e)
          case Ok(canonicalEvents) =>
            match Merge(authored, live)
            case Err(e) => Err(e)
            case Ok(_) =>
              if |canonicalEvents| != |liveEvents| then Err(Conflict) else Ok((Some(version.text), live))
  }

  /** The authored events a committed file holds; a missing file holds none. */
  function EventsIn(file: Option<Version>, excluded: set<string>): seq<Event> {
    if file.None? || file.value.text.Undecodable? then [] else Excluding(file.value.text.events, excluded)
  }

  function TextOf(file: Option<Version>): Option<Text> {
    if file.None? then None else Some(file.value.text)
  }

  /** The committed bundle, excluded abouts removed, is this stream; or it is absent and the stream is empty. */
  predicate Carries(file: Option<Version>, authored: seq<Event>, excluded: set<string>) {
    && (file.Some? ==> file.value.text.Bundle?)
    && EventsIn(file, excluded) == authored
  }

  /** The full check succeeds exactly on one provable history held by both sides. */
  lemma ProofIffSameHistory(log: Log, file: Option<Version>, excluded: set<string>)
    ensures ProveSameHistory(log, file, excluded).Ok? <==>
              && Provable(Authored(log, excluded))
              && Carries(file, Authored(log, excluded), excluded)
              && (file.Some? ==> Parse(file.value.text).Ok?)
    ensures ProveSameHistory(log, file, excluded).Ok?
            ==> ProveSameHistory(log, file, excluded).value == (TextOf(file), StreamOf(Authored(log, excluded)).Encode())
  {
    var authored := Authored(log, excluded);
    HeadBundleReadsBack(authored);
    if file.Some? && Parse(file.value.text).Ok? {
      var kept := Excluding(file.value.text.events, excluded);
      HeadBundleReadsBack(kept);
      MergeIffPrefix(StreamOf(kept).Encode(), StreamOf(authored).Encode());
    }
  }

  /** Where the tail holds, the full check would have succeeded, if and only if the stream is
      provable: the fast publish encodes without reading back. */
  lemma FastCheckRefinesFull(
      tail: CommittedTail, log: Log, file: Option<Version>, history: set<Version>, excluded: set<string>)
    requires Faithful(tail, log, excluded) && Stamped(tail, history) && StampsTell(history)
    requires file.Some? ==> file.value in history
    requires Holds(tail, log, file)
    ensures Carries(file, Authored(log, excluded), excluded)
    ensures ProveSameHistory(log, file, excluded).Ok? <==> Provable(tail.stream.payload)
  {
    var authored := Authored(log, excluded);
    HoldsMeansSame(tail, log, file, history, excluded);
    StreamPayload(authored);
    ExcludingTwice(EventsOf(log), excluded);
    HeadBundleReadsBack(authored);
    ProofIffSameHistory(log, file, excluded);
  }

  /** One event dated at the epoch. */
  const EPOCH_EVENT: Event := Event("project:a", "agent", 1, "h", 0, NoCard)

  lemma EpochAuthored()
    ensures Authored([Some(EPOCH_EVENT)], {}) == [EPOCH_EVENT]
  {
    AuthoredSnoc([], Some(EPOCH_EVENT), {});
    assert [] + [Some(EPOCH_EVENT)] == [Some(EPOCH_EVENT)];
    assert Authored([], {}) == [];
  }

  lemma EpochUnprovable()
    ensures !Provable([EPOCH_EVENT])
  {
    assert [EPOCH_EVENT][..0] == [];
  }

  /** The gap is real: a published head of one event dated at the epoch holds, and the full check
      refuses it. */
  lemma HoldsWithoutProof(stamp: FileStamp) returns (tail: CommittedTail, log: Log, file: Version)
    ensures Faithful(tail, log, {}) && Stamped(tail, {file}) && StampsTell({file})
    ensures Holds(tail, log, Some(file)) && ProveSameHistory(log, Some(file), {}).Err?
  {
    log := [Some(EPOCH_EVENT)];
    EpochAuthored();
    EpochUnprovable();
    var stream := StreamOf([EPOCH_EVENT]);
    file := Version(stream.Encode(), stamp);
    tail := CommittedTail(stamp, LogTailOf(1, Some(EPOCH_EVENT)), stream);
    assert log[..1] == log;
    ProofIffSameHistory(log, Some(file), {});
  }
}
