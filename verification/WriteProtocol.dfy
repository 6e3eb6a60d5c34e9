/**
 * The guarded write as a state machine: one store, one committed bundle, any number of
 * processes, crashes and power losses at every step, and changes by others beside the guard.
 */
module WriteProtocol {
  import opened Prelude
  import opened Bundles
  import opened CommittedTails
  import opened SameHistory

  /** What `begin_write` hands to the write: a tail, or the two sides of the full check. */
  datatype Start = Start(tail: Option<CommittedTail>, canonicalBefore: Option<Text>, liveBefore: Text)
  {
    /** Publishing takes the tail; a second publish finds none, and an empty live text. */
    function Spent(): Start { this.(tail := None) }
  }

  datatype Phase =
    | Idle
    | Locked
    | Proved(start: Start)
    | Marking(start: Start, marker: nat)
    | Open(start: Start, marker: nat, dirty: bool)
    | Publishing(start: Start, marker: nat, dirty: bool, head: ReadHead)
    | Renamed(start: Start, marker: nat, dirty: bool, head: ReadHead)
    | Settled(start: Start, marker: nat, dirty: bool, head: ReadHead)
    | Cleared(marker: nat)
  {
    /** A guard exists: its marker is durable and the store may change. */
    predicate Guards() { Open? || Publishing? || Renamed? || Settled? }

    /** No event was appended since the last successful publish. */
    predicate Clean() { Proved? || Marking? || Cleared? || (Guards() && !dirty) }
  }

  datatype Process = Process(memo: Option<CommittedTail>, phase: Phase)

  const FRESH: Process := Process(None, Idle)

  /**
   * `survivors`: the contents the committed path may have after a power loss.
   * `durable`: the markers a power loss keeps. `history`: every content the path ever had.
   * `foreign`, `raced`, `lost`: whether others changed authored history or the file, whether
   * someone rewrote the file inside a publish, whether the power was ever lost.
   */
  datatype State = State(
    excluded: set<string>, log: Log,
    file: Option<Version>, survivors: set<Option<Version>>, history: set<Version>,
    markers: set<nat>, durable: set<nat>, nextMarker: nat,
    lock: Option<nat>, procs: seq<Process>,
    foreign: bool, raced: bool, lost: bool)

  datatype Step =
    | Lock(p: nat)
    | Refuse(p: nat)
    | Prove(p: nat, blind: bool)
    | CreateMarker(p: nat)
    | SyncMarker(p: nat)
    | Append(p: nat, event: Event)
    | ReadForPublish(p: nat)
    | Rename(p: nat, version: Version)
    | SyncDirectory(p: nat)
    | Remember(p: nat, blind: bool)
    | PublishFails(p: nat)
    | RemoveMarker(p: nat)
    | SyncRemoval(p: nat)
    | Abandon(p: nat)
    | Crash(p: nat)
    | PowerLoss(kept: Option<Version>, left: set<nat>)
    | RepairStops(version: Version)
    | Repair(version: Version, removed: set<nat>, left: set<nat>)
    | AppendExcluded(event: Event)
    | AppendUnguarded(event: Event)
    | Rewrite(content: Option<Version>)

  function Put(s: State, p: nat, q: Process): State
    requires p < |s.procs|
  {
    s.(procs := s.procs[p := q])
  }

  function To(s: State, p: nat, phase: Phase): State
    requires p < |s.procs|
  {
    Put(s, p, s.procs[p].(phase := phase))
  }

  function Unlock(s: State, p: nat): State {
    if s.lock == Some(p) then s.(lock := None) else s
  }

  function Written(s: State, content: Option<Version>): State {
    s.(file := content, survivors := s.survivors + {content},
       history := if content.Some? then s.history + {content.value} else s.history)
  }

  /** The tail check, or else the full one. */
  function Preflight(log: Log, file: Option<Version>, excluded: set<string>, memo: Option<CommittedTail>, blind: bool)
    : Result<Start, PortError>
  {
    if memo.Some? && !blind && Holds(memo.value, log, file) then Ok(Start(memo, None, Undecodable))
    else
      match ProveSameHistory(log, file, excluded)
      case Err(e) => Err(e)
      case Ok((canonical, live)) => Ok(Start(None, canonical, live))
  }

  /** Steps 1-4 of a write: lock, refuse a pending marker, prove, mark. */
  function BeginStep(s: State, step: Step): Option<State>
    requires step.Lock? || step.Refuse? || step.Prove? || step.CreateMarker? || step.SyncMarker?
  {
    if step.p >= |s.procs| then None
    else
      var q := s.procs[step.p];
      match step
      case Lock(p) =>
        if q.phase.Idle? && s.lock.None? then Some(To(s.(lock := Some(p)), p, Locked)) else None
      case Refuse(p) =>
        if q.phase.Locked? && s.markers != {} then Some(To(Unlock(s, p), p, Idle)) else None
      case Prove(p, blind) =>
        if !q.phase.Locked? || s.markers != {} then None
        else
          (match Preflight(s.log, s.file, s.excluded, q.memo, blind)
           case Err(_) => Some(Put(Unlock(s, p), p, FRESH))
           case Ok(start) => Some(Put(s, p, Process(None, Proved(start)))))
      case CreateMarker(p) =>
        if q.phase.Proved? then
          Some(To(s.(markers := s.markers + {s.nextMarker}, nextMarker := s.nextMarker + 1), p,
                  Marking(q.phase.start, s.nextMarker)))
        else None
      case SyncMarker(p) =>
        if q.phase.Marking? then
          Some(To(s.(durable := s.markers), p, Open(q.phase.start, q.phase.marker, false)))
        else None
  }

  /** The tail extended by what the log holds after it. */
  function FastHead(log: Log, file: Option<Version>, excluded: set<string>, tail: CommittedTail)
    : Result<ReadHead, PortError>
  {
    if !FileIsOurs(tail, file) || !Continues(tail.log, log) then Err(Conflict)
    else Ok(ReadHead(LogTailOf(|log|, At(log, |log|)),
                     tail.stream.Extend(Authored(log[tail.log.position..], excluded))))
  }

  /** A full read, checked against the live text and the committed text the write began on. */
  function SlowHead(log: Log, file: Option<Version>, excluded: set<string>, start: Start)
    : Result<ReadHead, PortError>
  {
    var head := HeadOf(log, excluded);
    var bundle := head.stream.Encode();
    match Parse(bundle)
    case Err(e) => Err(e)
    case Ok(events) =>
      match Merge(start.liveBefore, bundle)
      case Err(e) => Err(e)
      case Ok(_) =>
        if |events| < |Parse(start.liveBefore).value| || TextOf(file) != start.canonicalBefore then Err(Conflict)
        else Ok(head)
  }

  /** The head a publish writes, or its refusal. */
  function PublishHead(log: Log, file: Option<Version>, excluded: set<string>, start: Start)
    : Result<ReadHead, PortError>
  {
    match start.tail
    case Some(tail) => FastHead(log, file, excluded, tail)
    case None => SlowHead(log, file, excluded, start)
  }

  /** The store changes, the bundle is published, the marker is cleared. */
  function WriteStep(s: State, step: Step): Option<State>
    requires step.Append? || step.ReadForPublish? || step.Rename? || step.SyncDirectory? || step.Remember?
          || step.PublishFails? || step.RemoveMarker? || step.SyncRemoval?
  {
    if step.p >= |s.procs| then None
    else
      var phase := s.procs[step.p].phase;
      match step
      case Append(p, event) =>
        if phase.Open? then Some(To(s.(log := s.log + [Some(event)]), p, Open(phase.start, phase.marker, true))) else None
      case ReadForPublish(p) =>
        if !phase.Open? then None
        else
          (match PublishHead(s.log, s.file, s.excluded, phase.start)
           case Err(_) => Some(To(s, p, Open(phase.start.Spent(), phase.marker, phase.dirty)))
           case Ok(head) => Some(To(s, p, Publishing(phase.start, phase.marker, phase.dirty, head))))
      case Rename(p, version) =>
        if phase.Publishing? && version.text == phase.head.stream.Encode() && StampsTell(s.history + {version}) then
          Some(To(Written(s, Some(version)), p, Renamed(phase.start, phase.marker, phase.dirty, phase.head)))
        else None
      case SyncDirectory(p) =>
        if phase.Renamed? then
          Some(To(s.(survivors := {s.file}), p, Settled(phase.start, phase.marker, phase.dirty, phase.head)))
        else None
      case Remember(p, blind) =>
        if !phase.Settled? then None
        else
          var memo := if blind || s.file.None? then None
                      else Some(CommittedTail(s.file.value.stamp, phase.head.log, phase.head.stream));
          Some(Put(s, p, Process(memo, Open(phase.start.Spent(), phase.marker, false))))
      case PublishFails(p) =>
        if phase.Publishing? || phase.Renamed? then
          Some(To(s, p, Open(phase.start.Spent(), phase.marker, phase.dirty)))
        else None
      case RemoveMarker(p) =>
        if phase.Open? && !phase.dirty then
          Some(To(s.(markers := s.markers - {phase.marker}), p, Cleared(phase.marker)))
        else None
      case SyncRemoval(p) =>
        if phase.Cleared? then Some(To(Unlock(s.(durable := s.markers), p), p, Idle)) else None
  }

  /** A repair exports the whole authored head while nobody writes. */
  predicate Repairs(s: State, version: Version) {
    && s.lock.None? && (forall q :: q in s.procs ==> q.phase.Idle?)
    && Provable(Authored(s.log, s.excluded))
    && version.text == StreamOf(Authored(s.log, s.excluded)).Encode()
    && StampsTell(s.history + {version})
  }

  predicate InsidePublish(phase: Phase) { phase.Publishing? || phase.Renamed? || phase.Settled? }

  /** What may happen to a process, to the machine, and beside the guard. */
  function OutsideStep(s: State, step: Step): Option<State>
    requires step.Abandon? || step.Crash? || step.PowerLoss? || step.RepairStops? || step.Repair? || step.AppendExcluded?
          || step.AppendUnguarded? || step.Rewrite?
  {
    match step
    case Abandon(p) =>
      if p < |s.procs| && !s.procs[p].phase.Idle? then
        var memo := if s.procs[p].phase.Locked? then None else s.procs[p].memo;
        Some(Put(Unlock(s, p), p, Process(memo, Idle)))
      else None
    case Crash(p) =>
      if p < |s.procs| then Some(Put(Unlock(s, p), p, FRESH)) else None
    case PowerLoss(kept, left) =>
      if kept in s.survivors && s.markers * s.durable <= left <= s.markers + s.durable then
        Some(s.(file := kept, survivors := {kept}, markers := left, durable := left, lock := None,
                procs := seq(|s.procs|, _ => FRESH), lost := true))
      else None
    case RepairStops(version) =>
      if Repairs(s, version) then Some(Written(s, Some(version))) else None
    case Repair(version, removed, left) =>
      if && Repairs(s, version)
         && (s.markers - removed) * s.durable <= left <= s.markers + s.durable
      then
        Some(Written(s, Some(version)).(survivors := {Some(version)}, markers := s.markers - removed, durable := left))
      else None
    case AppendExcluded(event) =>
      if event.root in s.excluded then Some(s.(log := s.log + [Some(event)])) else None
    case AppendUnguarded(event) =>
      Some(s.(log := s.log + [Some(event)], foreign := true))
    case Rewrite(content) =>
      if content.Some? ==> StampsTell(s.history + {content.value}) then
        Some(Written(s, content).(
             foreign := true, raced := s.raced || exists q :: q in s.procs && InsidePublish(q.phase)))
      else None
  }

  function Apply(s: State, step: Step): Option<State> {
    match step
    case Lock(_) => BeginStep(s, step)
    case Refuse(_) => BeginStep(s, step)
    case Prove(_, _) => BeginStep(s, step)
    case CreateMarker(_) => BeginStep(s, step)
    case SyncMarker(_) => BeginStep(s, step)
    case Append(_, _) => WriteStep(s, step)
    case ReadForPublish(_) => WriteStep(s, step)
    case Rename(_, _) => WriteStep(s, step)
    case SyncDirectory(_) => WriteStep(s, step)
    case Remember(_, _) => WriteStep(s, step)
    case PublishFails(_) => WriteStep(s, step)
    case RemoveMarker(_) => WriteStep(s, step)
    case SyncRemoval(_) => WriteStep(s, step)
    case Abandon(_) => OutsideStep(s, step)
    case Crash(_) => OutsideStep(s, step)
    case PowerLoss(_, _) => OutsideStep(s, step)
    case RepairStops(_) => OutsideStep(s, step)
    case Repair(_, _, _) => OutsideStep(s, step)
    case AppendExcluded(_) => OutsideStep(s, step)
    case AppendUnguarded(_) => OutsideStep(s, step)
    case Rewrite(_) => OutsideStep(s, step)
  }

  /** A run: every step enabled where it is taken. */
  function Run(s: State, steps: seq<Step>): Option<State>
    decreases |steps|
  {
    if steps == [] then Some(s)
    else
      match Apply(s, steps[0])
      case None => None
      case Some(next) => Run(next, steps[1..])
  }

  /** Where a run may begin: both sides agree, nothing is pending, every process is new. */
  predicate Initial(s: State) {
    && Carries(s.file, Authored(s.log, s.excluded), s.excluded)
    && s.survivors == {s.file}
    && s.history == (if s.file.Some? then {s.file.value} else {})
    && s.markers == {} && s.durable == {} && s.lock.None?
    && (forall q :: q in s.procs ==> q == FRESH)
    && !s.foreign && !s.raced && !s.lost
  }

  // ---- the invariant ----

  predicate TailOk(s: State, tail: Option<CommittedTail>) {
    tail.Some? ==> Faithful(tail.value, s.log, s.excluded) && (!s.raced ==> Stamped(tail.value, s.history))
  }

  /** The stream a write began on: what the bundle and the store were proved to hold. */
  function StartEvents(start: Start): seq<Event> {
    if start.tail.Some? then start.tail.value.stream.payload
    else if start.liveBefore.Bundle? then start.liveBefore.events else []
  }

  /** The text the committed file had when the write began. */
  function StartText(start: Start): Option<Text> {
    if start.tail.Some? then Some(start.tail.value.stream.Encode()) else start.canonicalBefore
  }

  predicate StartOk(s: State, start: Start) {
    && TailOk(s, start.tail)
    && (start.tail.Some? ==> start.canonicalBefore.None? && start.liveBefore.Undecodable?)
    && (start.liveBefore.Bundle? ==>
          match start.canonicalBefore
          case None => start.liveBefore.events == []
          case Some(text) => text.Bundle? && Excluding(text.events, s.excluded) == start.liveBefore.events)
  }

  /** The head was read off a prefix of the log, and continues the stream the write began on. */
  predicate HeadOk(s: State, start: Start, head: ReadHead) {
    && head.log.position <= |s.log|
    && head == HeadOf(s.log[..head.log.position], s.excluded)
    && StartEvents(start) <= head.stream.payload
    && (start.tail.None? ==> start.liveBefore.Bundle?)
    && (!s.foreign ==> head.stream.payload == Authored(s.log, s.excluded))
  }

  predicate MarkerOk(s: State, phase: Phase) {
    && (phase.Proved? || phase.Cleared? ==> s.markers == {})
    && (phase.Marking? ==> s.markers == {phase.marker})
    && (phase.Guards() ==> s.markers == {phase.marker} && s.durable == {phase.marker})
  }

  predicate PhaseOk(s: State, phase: Phase) {
    && MarkerOk(s, phase)
    && (phase.Proved? || phase.Marking? || phase.Guards() ==> StartOk(s, phase.start))
    && (InsidePublish(phase) ==> HeadOk(s, phase.start, phase.head))
    && (phase.Publishing? && !s.raced ==> TextOf(s.file) == StartText(phase.start))
    && ((phase.Renamed? || phase.Settled?) && !s.raced ==> TextOf(s.file) == Some(phase.head.stream.Encode()))
    && (phase.Settled? && !s.raced ==> s.survivors == {s.file})
    && (phase.Clean() && !s.foreign ==> Safe(s))
  }

  predicate TailOfPhase(phase: Phase) {
    (phase.Proved? || phase.Marking? || phase.Guards()) && phase.start.tail.Some?
  }

  predicate ProcessOk(s: State, q: Process) {
    && TailOk(s, q.memo)
    && !(q.memo.Some? && TailOfPhase(q.phase))
    && PhaseOk(s, q.phase)
  }

  /** Every content a power loss could bring back carries the authored stream. */
  predicate Safe(s: State) {
    forall f :: f in s.survivors ==> Carries(f, Authored(s.log, s.excluded), s.excluded)
  }

  /** Every such content carries a prefix of it. */
  predicate Behind(s: State) {
    forall f :: f in s.survivors ==> EventsIn(f, s.excluded) <= Authored(s.log, s.excluded)
  }

  predicate LockOk(s: State) {
    && (s.lock.Some? ==> s.lock.value < |s.procs|)
    && (forall p :: 0 <= p < |s.procs| ==> (s.procs[p].phase.Idle? <==> s.lock != Some(p)))
  }

  predicate FilesOk(s: State) {
    && s.file in s.survivors
    && (forall f :: f in s.survivors && f.Some? ==> f.value in s.history)
    && StampsTell(s.history)
    && (s.raced ==> s.foreign)
    && (!s.foreign ==> Behind(s) && (s.markers * s.durable == {} ==> Safe(s)))
  }

  predicate MarkersOk(s: State) {
    && (forall m :: m in s.markers ==> m < s.nextMarker)
    && (forall m :: m in s.durable ==> m < s.nextMarker)
    && (!s.lost ==> |s.markers| <= 1)
  }

  predicate Inv(s: State) {
    && LockOk(s) && FilesOk(s) && MarkersOk(s)
    && (forall p :: 0 <= p < |s.procs| ==> ProcessOk(s, s.procs[p]))
  }

  // ---- every step keeps it ----

  /** The world moved on without going back: what remembered tails rely on. */
  predicate Onward(s: State, s': State) {
    && s'.excluded == s.excluded && s.log <= s'.log && s.history <= s'.history && (s.raced ==> s'.raced)
  }

  lemma TailKeeps(s: State, s': State, tail: Option<CommittedTail>)
    requires TailOk(s, tail) && Onward(s, s')
    ensures TailOk(s', tail)
  {
    if tail.Some? {
      var more := s'.log[|s.log|..];
      assert s'.log == s.log + more;
      FaithfulGrows(tail.value, s.log, more, s.excluded);
    }
  }

  lemma OthersKeep(s: State, s': State, p: nat)
    requires Inv(s) && Onward(s, s') && p < |s.procs| == |s'.procs|
    requires forall i :: 0 <= i < |s.procs| && i != p ==> s'.procs[i] == s.procs[i] && s.procs[i].phase.Idle?
    requires ProcessOk(s', s'.procs[p])
    ensures forall i :: 0 <= i < |s'.procs| ==> ProcessOk(s', s'.procs[i])
  {
    forall i | 0 <= i < |s'.procs|
      ensures ProcessOk(s', s'.procs[i])
    {
      if i != p {
        assert ProcessOk(s, s.procs[i]);
        TailKeeps(s, s', s.procs[i].memo);
      }
    }
  }

  /** A successful check is a start that can be trusted. */
  lemma PreflightStarts(s: State, memo: Option<CommittedTail>, blind: bool, start: Start)
    requires FilesOk(s) && TailOk(s, memo)
    requires Preflight(s.log, s.file, s.excluded, memo, blind) == Ok(start)
    ensures StartOk(s, start)
  {
    if start.tail.None? {
      ProofIffSameHistory(s.log, s.file, s.excluded);
      HeadBundleReadsBack(Authored(s.log, s.excluded));
      StreamPayload(Authored(s.log, s.excluded));
    }
  }

  /** Moving the process that holds the lock, and nothing else. */
  lemma PutKeeps(s: State, p: nat, q: Process, s': State)
    requires Inv(s) && s.lock == Some(p) && p < |s.procs|
    requires s' == Put(if q.phase.Idle? then Unlock(s, p) else s, p, q)
    requires ProcessOk(s, q)
    ensures Inv(s')
  {
    assert ProcessOk(s', q);
    OthersKeep(s, s', p);
  }

  lemma LockingKeeps(s: State, step: Step, s': State)
    requires Inv(s) && (step.Lock? || step.Refuse?)
    requires BeginStep(s, step) == Some(s')
    ensures Inv(s')
  {
    assert ProcessOk(s, s.procs[step.p]);
    OthersKeep(s, s', step.p);
  }

  lemma ProvedKeeps(s: State, p: nat, start: Start, s': State)
    requires Inv(s) && s.lock == Some(p) && p < |s.procs| && s.markers == {}
    requires StartOk(s, start) && s' == Put(s, p, Process(None, Proved(start)))
    ensures Inv(s')
  {
    PutKeeps(s, p, Process(None, Proved(start)), s');
  }

  lemma RefutedKeeps(s: State, p: nat, s': State)
    requires Inv(s) && p < |s.procs| && s.procs[p].phase.Locked?
    requires s' == Put(Unlock(s, p), p, FRESH)
    ensures Inv(s')
  {
    assert ProcessOk(s, FRESH);
    PutKeeps(s, p, FRESH, s');
  }

  lemma ProveKeeps(s: State, p: nat, blind: bool, s': State)
    requires Inv(s)
    requires BeginStep(s, Prove(p, blind)) == Some(s')
    ensures Inv(s')
  {
    var before := s.procs[p];
    assert ProcessOk(s, before);
    var proof := Preflight(s.log, s.file, s.excluded, before.memo, blind);
    if proof.Ok? {
      PreflightStarts(s, before.memo, blind, proof.value);
      ProvedKeeps(s, p, proof.value, s');
    } else {
      RefutedKeeps(s, p, s');
    }
  }

  /** Replacing the lock holder's phase while the rest of the world moves on. */
  lemma AdvanceKeeps(s: State, p: nat, q: Process, s': State)
    requires Inv(s) && s.lock == Some(p) == s'.lock && p < |s.procs|
    requires s'.procs == s.procs[p := q] && !q.phase.Idle?
    requires Onward(s, s') && FilesOk(s') && MarkersOk(s') && ProcessOk(s', q)
    ensures Inv(s')
  {
    OthersKeep(s, s', p);
  }

  lemma CreateMarkerKeeps(s: State, p: nat, s': State)
    requires Inv(s)
    requires BeginStep(s, CreateMarker(p)) == Some(s')
    ensures Inv(s')
  {
    assert ProcessOk(s, s.procs[p]);
    AdvanceKeeps(s, p, s'.procs[p], s');
  }

  lemma SyncMarkerKeeps(s: State, p: nat, s': State)
    requires Inv(s)
    requires BeginStep(s, SyncMarker(p)) == Some(s')
    ensures Inv(s')
  {
    assert ProcessOk(s, s.procs[p]);
    AdvanceKeeps(s, p, s'.procs[p], s');
  }

  /** Growing the log by one event leaves tails faithful and bundles behind. */
  lemma AppendBehind(s: State, event: Event, s': State)
    requires FilesOk(s) && !s.foreign
    requires s'.excluded == s.excluded && s'.survivors == s.survivors && s'.log == s.log + [Some(event)]
    ensures Behind(s')
    ensures event.root in s.excluded ==> Authored(s'.log, s.excluded) == Authored(s.log, s.excluded)
  {
    AuthoredSnoc(s.log, Some(event), s.excluded);
    assert Authored(s.log, s.excluded) <= Authored(s'.log, s.excluded);
  }

  lemma AppendFiles(s: State, event: Event, s': State)
    requires FilesOk(s) && s.markers * s.durable != {}
    requires s' == s.(log := s.log + [Some(event)], procs := s'.procs)
    ensures FilesOk(s') && Onward(s, s')
  {
    if !s.foreign { AppendBehind(s, event, s'); }
  }

  lemma AppendProcess(s: State, q: Process, event: Event, s': State)
    requires ProcessOk(s, q) && q.phase.Open?
    requires s' == s.(log := s.log + [Some(event)], procs := s'.procs)
    ensures ProcessOk(s', q.(phase := Open(q.phase.start, q.phase.marker, true)))
  {
    TailKeeps(s, s', q.memo);
    TailKeeps(s, s', q.phase.start.tail);
  }

  lemma AppendKeeps(s: State, p: nat, event: Event, s': State)
    requires Inv(s)
    requires WriteStep(s, Append(p, event)) == Some(s')
    ensures Inv(s')
  {
    var q := s.procs[p];
    assert ProcessOk(s, q);
    assert s.markers * s.durable == {q.phase.marker};
    AppendFiles(s, event, s');
    AppendProcess(s, q, event, s');
    AdvanceKeeps(s, p, s'.procs[p], s');
  }

  /** The tail's publish accepts the head of the whole log, which continues the tail's stream. */
  lemma FastHeadOk(s: State, start: Start, head: ReadHead)
    requires FilesOk(s) && StartOk(s, start) && start.tail.Some? && PublishHead(s.log, s.file, s.excluded, start) == Ok(head)
    ensures head == HeadOf(s.log, s.excluded) && StartEvents(start) <= head.stream.payload
    ensures Stamped(start.tail.value, s.history) ==> TextOf(s.file) == StartText(start)
  {
    var tail := start.tail.value;
    var cut := tail.log.position;
    assert s.log[..cut] + s.log[cut..] == s.log;
    ExtensionIsHead(tail, s.log, s.excluded);
    AuthoredAppend(s.log[..cut], s.log[cut..], s.excluded);
    StreamPayload(Authored(s.log[..cut], s.excluded));
    StreamPayload(Authored(s.log, s.excluded));
  }

  /** So does the full publish. */
  lemma SlowHeadOk(s: State, start: Start, head: ReadHead)
    requires start.tail.None? && PublishHead(s.log, s.file, s.excluded, start) == Ok(head)
    ensures head == HeadOf(s.log, s.excluded) && start.liveBefore.Bundle?
    ensures StartEvents(start) <= head.stream.payload
    ensures TextOf(s.file) == StartText(start)
  {
    StreamPayload(Authored(s.log, s.excluded));
    MergeIffPrefix(start.liveBefore, head.stream.Encode());
  }

  lemma PublishHeadOk(s: State, start: Start, head: ReadHead)
    requires FilesOk(s) && StartOk(s, start) && PublishHead(s.log, s.file, s.excluded, start) == Ok(head)
    ensures head == HeadOf(s.log, s.excluded) && HeadOk(s, start, head)
    ensures !s.raced ==> TextOf(s.file) == StartText(start)
  {
    assert s.log[..|s.log|] == s.log;
    if start.tail.Some? { FastHeadOk(s, start, head); } else { SlowHeadOk(s, start, head); }
    StreamPayload(Authored(s.log, s.excluded));
  }

  lemma HeadReadKeeps(s: State, p: nat, head: ReadHead, s': State)
    requires Inv(s) && p < |s.procs| && s.procs[p].phase.Open?
    requires PublishHead(s.log, s.file, s.excluded, s.procs[p].phase.start) == Ok(head)
    requires var phase := s.procs[p].phase;
             s' == To(s, p, Publishing(phase.start, phase.marker, phase.dirty, head))
    ensures Inv(s')
  {
    var q := s.procs[p];
    assert ProcessOk(s, q);
    PublishHeadOk(s, q.phase.start, head);
    PutKeeps(s, p, s'.procs[p], s');
  }

  lemma ReadForPublishKeeps(s: State, p: nat, s': State)
    requires Inv(s)
    requires WriteStep(s, ReadForPublish(p)) == Some(s')
    ensures Inv(s')
  {
    var q := s.procs[p];
    var head := PublishHead(s.log, s.file, s.excluded, q.phase.start);
    if head.Ok? {
      HeadReadKeeps(s, p, head.value, s');
    } else {
      assert ProcessOk(s, q);
      PutKeeps(s, p, s'.procs[p], s');
    }
  }

  /** A head bundle carries its own authored stream. */
  lemma HeadCarries(log: Slots, version: Version, excluded: set<string>)
    requires version.text == StreamOf(Authored(log, excluded)).Encode()
    ensures Carries(Some(version), Authored(log, excluded), excluded)
  {
    StreamPayload(Authored(log, excluded));
    ExcludingTwice(EventsOf(log), excluded);
  }

  lemma AuthoredPrefix(log: Slots, cut: nat, excluded: set<string>)
    requires cut <= |log|
    ensures Authored(log[..cut], excluded) <= Authored(log, excluded)
  {
    assert log[..cut] + log[cut..] == log;
    AuthoredAppend(log[..cut], log[cut..], excluded);
  }

  /** A head bundle about to be renamed carries a prefix of the authored stream, and all of it
      while nobody wrote beside the guard. */
  lemma HeadBundleCarries(s: State, start: Start, head: ReadHead, version: Version)
    requires HeadOk(s, start, head) && version.text == head.stream.Encode()
    ensures EventsIn(Some(version), s.excluded) <= Authored(s.log, s.excluded)
    ensures !s.foreign ==> Carries(Some(version), Authored(s.log, s.excluded), s.excluded)
  {
    var cut := head.log.position;
    HeadCarries(s.log[..cut], version, s.excluded);
    StreamPayload(Authored(s.log[..cut], s.excluded));
    AuthoredPrefix(s.log, cut, s.excluded);
  }

  /** Renaming a head bundle into place leaves every survivor carrying a prefix. */
  lemma RenameFiles(s: State, phase: Phase, version: Version, s': State)
    requires FilesOk(s) && phase.Publishing? && PhaseOk(s, phase)
    requires version.text == phase.head.stream.Encode() && StampsTell(s.history + {version})
    requires s' == Written(s, Some(version)).(procs := s'.procs)
    ensures FilesOk(s')
    ensures !phase.dirty && !s.foreign ==> Safe(s')
  {
    HeadBundleCarries(s, phase.start, phase.head, version);
    assert phase.marker in s.markers * s.durable;
  }

  lemma RenameProcess(s: State, p: nat, version: Version, s': State)
    requires Inv(s)
    requires WriteStep(s, Rename(p, version)) == Some(s')
    ensures FilesOk(s') && ProcessOk(s', s'.procs[p])
  {
    var q := s.procs[p];
    assert ProcessOk(s, q);
    RenameFiles(s, q.phase, version, s');
    TailKeeps(s, s', q.memo);
    TailKeeps(s, s', q.phase.start.tail);
  }

  lemma RenameKeeps(s: State, p: nat, version: Version, s': State)
    requires Inv(s)
    requires WriteStep(s, Rename(p, version)) == Some(s')
    ensures Inv(s')
  {
    RenameProcess(s, p, version, s');
    AdvanceKeeps(s, p, s'.procs[p], s');
  }

  lemma SyncDirectoryFiles(s: State, s': State)
    requires FilesOk(s) && s' == s.(survivors := {s.file}, procs := s'.procs)
    ensures FilesOk(s') && Onward(s, s') && (Safe(s) ==> Safe(s'))
  {
  }

  lemma SyncDirectoryProcess(s: State, q: Process, s': State)
    requires ProcessOk(s, q) && q.phase.Renamed? && s' == s.(survivors := {s.file}, procs := s'.procs)
    requires Safe(s) ==> Safe(s')
    ensures ProcessOk(s', q.(phase := Settled(q.phase.start, q.phase.marker, q.phase.dirty, q.phase.head)))
  {
  }

  lemma SyncDirectoryKeeps(s: State, p: nat, s': State)
    requires Inv(s)
    requires WriteStep(s, SyncDirectory(p)) == Some(s')
    ensures Inv(s')
  {
    var q := s.procs[p];
    assert ProcessOk(s, q);
    SyncDirectoryFiles(s, s');
    SyncDirectoryProcess(s, q, s');
    AdvanceKeeps(s, p, s'.procs[p], s');
  }

  /** A head read off a prefix of the log makes a faithful tail. */
  lemma HeadFaithful(log: Slots, head: ReadHead, stamp: FileStamp, excluded: set<string>)
    requires head.log.position <= |log| && head == HeadOf(log[..head.log.position], excluded)
    ensures Faithful(CommittedTail(stamp, head.log, head.stream), log, excluded)
  {
    var prefix := log[..head.log.position];
    assert At(prefix, |prefix|) == At(log, |prefix|);
  }

  /** After a finished publish every survivor carries the authored stream. */
  lemma SettledSafe(s: State, phase: Phase)
    requires FilesOk(s) && phase.Settled? && PhaseOk(s, phase) && !s.foreign
    ensures Safe(s)
  {
    var log := s.log[..phase.head.log.position];
    StreamPayload(Authored(log, s.excluded));
    HeadCarries(log, s.file.value, s.excluded);
  }

  lemma RememberKeeps(s: State, p: nat, blind: bool, s': State)
    requires Inv(s)
    requires WriteStep(s, Remember(p, blind)) == Some(s')
    ensures Inv(s')
  {
    var q := s.procs[p];
    assert ProcessOk(s, q);
    if !s.foreign { SettledSafe(s, q.phase); }
    if s.file.Some? { HeadFaithful(s.log, q.phase.head, s.file.value.stamp, s.excluded); }
    PutKeeps(s, p, s'.procs[p], s');
  }

  /** A failed publish goes back to the open guard, its tail spent. */
  lemma FailedProcess(s: State, q: Process)
    requires ProcessOk(s, q) && (q.phase.Publishing? || q.phase.Renamed?)
    ensures ProcessOk(s, q.(phase := Open(q.phase.start.Spent(), q.phase.marker, q.phase.dirty)))
  {
  }

  lemma PublishFailsKeeps(s: State, p: nat, s': State)
    requires Inv(s)
    requires WriteStep(s, PublishFails(p)) == Some(s')
    ensures Inv(s')
  {
    assert ProcessOk(s, s.procs[p]);
    FailedProcess(s, s.procs[p]);
    PutKeeps(s, p, s'.procs[p], s');
  }

  lemma RemoveMarkerKeeps(s: State, p: nat, s': State)
    requires Inv(s)
    requires WriteStep(s, RemoveMarker(p)) == Some(s')
    ensures Inv(s')
  {
    assert ProcessOk(s, s.procs[p]);
    AdvanceKeeps(s, p, s'.procs[p], s');
  }

  lemma SyncRemovalKeeps(s: State, p: nat, s': State)
    requires Inv(s)
    requires WriteStep(s, SyncRemoval(p)) == Some(s')
    ensures Inv(s')
  {
    assert ProcessOk(s, s.procs[p]);
    OthersKeep(s, s', p);
  }

  // ---- what happens outside ----

  /** A process that does not hold the lock leaves: nothing of the others changes. */
  lemma LeaveUnlocked(s: State, p: nat, q: Process, s': State)
    requires Inv(s) && p < |s.procs| && s.lock != Some(p) && s' == Put(s, p, q)
    requires q.phase.Idle? && (q.memo == s.procs[p].memo || q.memo == None)
    ensures Inv(s')
  {
    forall i | 0 <= i < |s'.procs|
      ensures ProcessOk(s', s'.procs[i])
    {
      assert ProcessOk(s, s.procs[i]);
    }
  }

  lemma LeaveKeeps(s: State, step: Step, s': State)
    requires Inv(s) && (step.Abandon? || step.Crash?)
    requires OutsideStep(s, step) == Some(s')
    ensures Inv(s')
  {
    var p := step.p;
    assert ProcessOk(s, s.procs[p]);
    if s.lock == Some(p) {
      PutKeeps(s, p, s'.procs[p], s');
    } else {
      LeaveUnlocked(s, p, s'.procs[p], s');
    }
  }

  lemma PowerLossKeeps(s: State, kept: Option<Version>, left: set<nat>, s': State)
    requires Inv(s)
    requires OutsideStep(s, PowerLoss(kept, left)) == Some(s')
    ensures Inv(s')
  {
    assert left * left == left;
    forall m | m in left ensures m < s.nextMarker {
      assert m in s.markers || m in s.durable;
    }
    if left == {} { assert s.markers * s.durable == {}; }
  }

  /** Steps beside an open guard: the process inside keeps what it knows. */
  lemma BesideKeeps(s: State, s': State)
    requires Inv(s) && Onward(s, s') && FilesOk(s') && MarkersOk(s')
    requires s'.lock == s.lock && s'.procs == s.procs
    requires forall p :: 0 <= p < |s.procs| && !s.procs[p].phase.Idle? ==> ProcessOk(s', s.procs[p])
    ensures Inv(s')
  {
    forall p | 0 <= p < |s.procs|
      ensures ProcessOk(s', s'.procs[p])
    {
      assert ProcessOk(s, s.procs[p]);
      TailKeeps(s, s', s.procs[p].memo);
    }
  }

  /** What a repair leaves: the authored head, durably, and fewer markers. */
  lemma RepairFiles(s: State, version: Version, s': State)
    requires FilesOk(s) && version.text == StreamOf(Authored(s.log, s.excluded)).Encode() && StampsTell(s.history + {version})
    requires s' == Written(s, Some(version)).(survivors := {Some(version)}, markers := s'.markers, durable := s'.durable)
    ensures FilesOk(s') && Onward(s, s')
  {
    HeadCarries(s.log, version, s.excluded);
  }

  /** A repair that stopped before its export was durable: the head may be there, nothing is cleared. */
  lemma RepairStopsKeeps(s: State, version: Version, s': State)
    requires Inv(s) && OutsideStep(s, RepairStops(version)) == Some(s')
    ensures Inv(s')
  {
    HeadCarries(s.log, version, s.excluded);
    assert FilesOk(s') && Onward(s, s');
    BesideKeeps(s, s');
  }

  lemma RepairMarkers(s: State, removed: set<nat>, left: set<nat>, s': State)
    requires MarkersOk(s) && (s.markers - removed) * s.durable <= left <= s.markers + s.durable
    requires s'.markers == s.markers - removed && s'.durable == left && s'.nextMarker == s.nextMarker && s'.lost == s.lost
    ensures MarkersOk(s')
  {
    SubsetSize(s'.markers, s.markers);
    forall m | m in left
      ensures m < s.nextMarker
    {
      assert m in s.markers || m in s.durable;
    }
  }

  lemma RepairKeeps(s: State, version: Version, removed: set<nat>, left: set<nat>, s': State)
    requires Inv(s)
    requires OutsideStep(s, Repair(version, removed, left)) == Some(s')
    ensures Inv(s')
  {
    RepairFiles(s, version, s');
    RepairMarkers(s, removed, left, s');
    BesideKeeps(s, s');
  }

  lemma SubsetSize(small: set<nat>, large: set<nat>)
    requires small <= large
    ensures |small| <= |large|
  {
    assert large == small + (large - small);
  }

  predicate Beside(s: State, event: Event, s': State) {
    && s' == s.(log := s.log + [Some(event)], foreign := s'.foreign)
    && (s.foreign ==> s'.foreign)
    && (event.root in s.excluded || s'.foreign)
  }

  lemma BesideHead(s: State, event: Event, s': State, start: Start, head: ReadHead)
    requires Beside(s, event, s') && HeadOk(s, start, head)
    ensures HeadOk(s', start, head)
  {
    AuthoredSnoc(s.log, Some(event), s.excluded);
    assert s'.log[..head.log.position] == s.log[..head.log.position];
  }

  lemma BesideSafe(s: State, event: Event, s': State)
    requires Beside(s, event, s') && !s'.foreign && Safe(s)
    ensures Safe(s')
  {
    AuthoredSnoc(s.log, Some(event), s.excluded);
  }

  /** An event appended beside the guard: the process inside keeps what it knows. */
  lemma BesideAppend(s: State, event: Event, s': State, q: Process)
    requires FilesOk(s) && ProcessOk(s, q) && Beside(s, event, s')
    ensures ProcessOk(s', q)
  {
    TailKeeps(s, s', q.memo);
    var phase := q.phase;
    if phase.Proved? || phase.Marking? || phase.Guards() {
      TailKeeps(s, s', phase.start.tail);
      if InsidePublish(phase) { BesideHead(s, event, s', phase.start, phase.head); }
    }
    if phase.Clean() && !s'.foreign { BesideSafe(s, event, s'); }
  }

  lemma BesideFiles(s: State, event: Event, s': State)
    requires FilesOk(s) && Beside(s, event, s')
    ensures FilesOk(s')
  {
    if !s'.foreign {
      AppendBehind(s, event, s');
      if s.markers * s.durable == {} { BesideSafe(s, event, s'); }
    }
  }

  lemma AppendBesideKeeps(s: State, step: Step, s': State)
    requires Inv(s) && (step.AppendExcluded? || step.AppendUnguarded?)
    requires OutsideStep(s, step) == Some(s')
    ensures Inv(s')
  {
    assert Beside(s, step.event, s');
    forall p | 0 <= p < |s.procs| && !s.procs[p].phase.Idle?
      ensures ProcessOk(s', s.procs[p])
    {
      assert ProcessOk(s, s.procs[p]);
      BesideAppend(s, step.event, s', s.procs[p]);
    }
    BesideFiles(s, step.event, s');
    BesideKeeps(s, s');
  }

  lemma BesideRewrite(s: State, content: Option<Version>, s': State, q: Process)
    requires FilesOk(s) && ProcessOk(s, q)
    requires s' == Written(s, content).(foreign := true, raced := s'.raced)
    requires s.raced || InsidePublish(q.phase) ==> s'.raced
    ensures ProcessOk(s', q)
  {
    TailKeeps(s, s', q.memo);
    var phase := q.phase;
    if phase.Proved? || phase.Marking? || phase.Guards() {
      TailKeeps(s, s', phase.start.tail);
    }
  }

  lemma RewriteKeeps(s: State, content: Option<Version>, s': State)
    requires Inv(s)
    requires OutsideStep(s, Rewrite(content)) == Some(s')
    ensures Inv(s')
  {
    forall p | 0 <= p < |s.procs| && !s.procs[p].phase.Idle?
      ensures ProcessOk(s', s.procs[p])
    {
      assert ProcessOk(s, s.procs[p]);
      assert s.procs[p] in s.procs;
      BesideRewrite(s, content, s', s.procs[p]);
    }
    BesideKeeps(s, s');
  }

  // ---- whole runs ----

  predicate Begins(step: Step) { step.Lock? || step.Refuse? || step.Prove? || step.CreateMarker? || step.SyncMarker? }

  predicate Writes(step: Step) {
    || step.Append? || step.ReadForPublish? || step.Rename? || step.SyncDirectory? || step.Remember?
    || step.PublishFails? || step.RemoveMarker? || step.SyncRemoval?
  }

  lemma BeginKeeps(s: State, step: Step, s': State)
    requires Inv(s) && Begins(step) && BeginStep(s, step) == Some(s')
    ensures Inv(s')
  {
    match step
    case Prove(p, blind) => ProveKeeps(s, p, blind, s');
    case CreateMarker(p) => CreateMarkerKeeps(s, p, s');
    case SyncMarker(p) => SyncMarkerKeeps(s, p, s');
    case _ => LockingKeeps(s, step, s');
  }

  lemma WriteKeeps(s: State, step: Step, s': State)
    requires Inv(s) && Writes(step) && WriteStep(s, step) == Some(s')
    ensures Inv(s')
  {
    match step
    case Append(p, event) => AppendKeeps(s, p, event, s');
    case ReadForPublish(p) => ReadForPublishKeeps(s, p, s');
    case Rename(p, version) => RenameKeeps(s, p, version, s');
    case SyncDirectory(p) => SyncDirectoryKeeps(s, p, s');
    case Remember(p, blind) => RememberKeeps(s, p, blind, s');
    case PublishFails(p) => PublishFailsKeeps(s, p, s');
    case RemoveMarker(p) => RemoveMarkerKeeps(s, p, s');
    case SyncRemoval(p) => SyncRemovalKeeps(s, p, s');
  }

  lemma OutsideKeeps(s: State, step: Step, s': State)
    requires Inv(s) && !Begins(step) && !Writes(step) && OutsideStep(s, step) == Some(s')
    ensures Inv(s')
  {
    match step
    case PowerLoss(kept, left) => PowerLossKeeps(s, kept, left, s');
    case RepairStops(version) => RepairStopsKeeps(s, version, s');
    case Repair(version, removed, left) => RepairKeeps(s, version, removed, left, s');
    case Rewrite(content) => RewriteKeeps(s, content, s');
    case AppendExcluded(_) => AppendBesideKeeps(s, step, s');
    case AppendUnguarded(_) => AppendBesideKeeps(s, step, s');
    case _ => LeaveKeeps(s, step, s');
  }

  /** Every step of every process, every crash and every change beside the guard keeps it. */
  lemma StepKeeps(s: State, step: Step, s': State)
    requires Inv(s) && Apply(s, step) == Some(s')
    ensures Inv(s')
  {
    if Begins(step) {
      BeginKeeps(s, step, s');
    } else if Writes(step) {
      WriteKeeps(s, step, s');
    } else {
      OutsideKeeps(s, step, s');
    }
  }

  lemma InitialHolds(s: State)
    requires Initial(s)
    ensures Inv(s)
  {
    assert forall f :: f in s.survivors ==> f == s.file;
    forall p | 0 <= p < |s.procs|
      ensures s.procs[p] == FRESH
    {
      assert s.procs[p] in s.procs;
    }
  }

  lemma {:induction false} RunKeeps(s: State, steps: seq<Step>, s': State)
    requires Inv(s) && Run(s, steps) == Some(s')
    ensures Inv(s')
    decreases |steps|
  {
    if steps == [] {
    } else {
      var next := Apply(s, steps[0]).value;
      StepKeeps(s, steps[0], next);
      RunKeeps(next, steps[1..], s');
    }
  }

  /** Whenever no marker is pending, the committed bundle carries exactly the authored stream:
      on every run in which others leave the authored history and the file alone, whatever
      crashes and power losses it holds. */
  lemma QuietMeansSame(s0: State, steps: seq<Step>, s: State)
    requires Initial(s0) && Run(s0, steps) == Some(s) && !s.foreign
    ensures s.markers == {} ==> Carries(s.file, Authored(s.log, s.excluded), s.excluded)
    ensures s.markers * s.durable == {} ==>
              forall f :: f in s.survivors ==> Carries(f, Authored(s.log, s.excluded), s.excluded)
  {
    InitialHolds(s0);
    RunKeeps(s0, steps, s);
  }

  /** The lock, the markers and the tails, in every reachable state, whatever others do. */
  lemma GuardDiscipline(s0: State, steps: seq<Step>, s: State, p: nat, q: nat)
    requires Initial(s0) && Run(s0, steps) == Some(s) && p < |s.procs| && q < |s.procs|
    ensures !s.procs[p].phase.Idle? && !s.procs[q].phase.Idle? ==> p == q && s.lock == Some(p)
    ensures s.procs[p].phase.Guards() ==> s.markers == s.durable == {s.procs[p].phase.marker}
    ensures s.procs[p].memo.Some? ==> !TailOfPhase(s.procs[p].phase)
    ensures !s.lost ==> |s.markers| <= 1
  {
    InitialHolds(s0);
    RunKeeps(s0, steps, s);
    assert ProcessOk(s, s.procs[p]) && ProcessOk(s, s.procs[q]);
  }

  /** A write begins only where both sides hold one history, whoever changed either of them
      before, unless someone rewrote the file inside an earlier publish; and where it began on
      the tail the full check would have agreed, if and only if the stream is provable. */
  lemma BeginsOnOneHistory(s0: State, steps: seq<Step>, s: State, p: nat, blind: bool, s': State)
    requires Initial(s0) && Run(s0, steps) == Some(s) && !s.raced
    requires Apply(s, Prove(p, blind)) == Some(s') && s'.procs[p].phase.Proved?
    ensures s.markers == {} && Carries(s.file, Authored(s.log, s.excluded), s.excluded)
    ensures StartEvents(s'.procs[p].phase.start) == Authored(s.log, s.excluded)
    ensures StartText(s'.procs[p].phase.start) == TextOf(s.file)
    ensures ProveSameHistory(s.log, s.file, s.excluded).Ok? <==> Provable(Authored(s.log, s.excluded))
  {
    InitialHolds(s0);
    RunKeeps(s0, steps, s);
    assert ProcessOk(s, s.procs[p]);
    var start := s'.procs[p].phase.start;
    assert Preflight(s.log, s.file, s.excluded, s.procs[p].memo, blind) == Ok(start);
    StreamPayload(Authored(s.log, s.excluded));
    ProofIffSameHistory(s.log, s.file, s.excluded);
    if start.tail.Some? {
      FastCheckRefinesFull(start.tail.value, s.log, s.file, s.history, s.excluded);
      HoldsMeansSame(start.tail.value, s.log, s.file, s.history, s.excluded);
    }
  }

  /** A publish that fails leaves no tail anywhere: what it took is gone. */
  lemma FailedPublishForgets(s0: State, steps: seq<Step>, s: State, step: Step, s': State)
    requires Initial(s0) && Run(s0, steps) == Some(s)
    requires step.ReadForPublish? || step.PublishFails?
    requires Apply(s, step) == Some(s') && s'.procs[step.p].phase.Open?
    ensures !TailOfPhase(s'.procs[step.p].phase)
    ensures TailOfPhase(s.procs[step.p].phase) ==>
              s'.procs[step.p] == Process(None, Open(Start(None, None, Undecodable), s.procs[step.p].phase.marker,
                                                     s.procs[step.p].phase.dirty))
  {
    InitialHolds(s0);
    RunKeeps(s0, steps, s);
    assert ProcessOk(s, s.procs[step.p]);
    if step.ReadForPublish? {
      assert PublishHead(s.log, s.file, s.excluded, s.procs[step.p].phase.start).Err?;
    }
  }

  /** And a write whose tail is gone can publish nothing more. */
  lemma SpentNeverPublishes(s: State)
    ensures PublishHead(s.log, s.file, s.excluded, Start(None, None, Undecodable)).Err?
  {
    MergeIffPrefix(Undecodable, HeadOf(s.log, s.excluded).stream.Encode());
  }

  /** What a publish puts in place is the bundle a full read of the log would give, it continues
      the stream the write began on, and it replaces the very text the write began on. */
  lemma PublishIsExact(s0: State, steps: seq<Step>, s: State, p: nat, version: Version, s': State)
    requires Initial(s0) && Run(s0, steps) == Some(s)
    requires Apply(s, Rename(p, version)) == Some(s')
    ensures s'.file == Some(version)
    ensures var phase := s.procs[p].phase;
            && phase.head.log.position <= |s.log|
            && version.text == StreamOf(Authored(s.log[..phase.head.log.position], s.excluded)).Encode()
            && StartEvents(phase.start) <= Authored(s.log[..phase.head.log.position], s.excluded)
            && (!s.foreign ==> version.text == StreamOf(Authored(s.log, s.excluded)).Encode())
            && (!s.raced ==> TextOf(s.file) == StartText(phase.start))
  {
    InitialHolds(s0);
    RunKeeps(s0, steps, s);
    assert ProcessOk(s, s.procs[p]);
    StreamPayload(Authored(s.log[..s.procs[p].phase.head.log.position], s.excluded));
  }

  predicate FlagsKept(s: State, s': State) {
    (s.foreign ==> s'.foreign) && (s.lost ==> s'.lost) && s'.excluded == s.excluded
  }

  lemma BeginFlags(s: State, step: Step, s': State)
    requires step.Lock? || step.Refuse? || step.Prove? || step.CreateMarker? || step.SyncMarker?
    requires BeginStep(s, step) == Some(s')
    ensures FlagsKept(s, s')
  {
    if step.Prove? {
      var proof := Preflight(s.log, s.file, s.excluded, s.procs[step.p].memo, step.blind);
    }
  }

  lemma ReadFlags(s: State, p: nat, s': State)
    requires WriteStep(s, ReadForPublish(p)) == Some(s')
    ensures FlagsKept(s, s') && s'.file == s.file
  {
    var head := PublishHead(s.log, s.file, s.excluded, s.procs[p].phase.start);
    assert s' == To(s, p, s'.procs[p].phase);
  }

  lemma FlagsStick(s: State, step: Step, s': State)
    requires Apply(s, step) == Some(s')
    ensures FlagsKept(s, s')
  {
    if step.Lock? || step.Refuse? || step.Prove? || step.CreateMarker? || step.SyncMarker? {
      BeginFlags(s, step, s');
    } else if step.ReadForPublish? {
      ReadFlags(s, step.p, s');
    }
  }

  lemma {:induction false} RunFlags(s: State, steps: seq<Step>, s': State)
    requires Run(s, steps) == Some(s')
    ensures FlagsKept(s, s')
    decreases |steps|
  {
    if steps == [] {
    } else {
      FlagsStick(s, steps[0], Apply(s, steps[0]).value);
      RunFlags(Apply(s, steps[0]).value, steps[1..], s');
    }
  }

  lemma RenameExtends(s: State, p: nat, version: Version, s': State)
    requires FilesOk(s) && WriteStep(s, Rename(p, version)) == Some(s') && PhaseOk(s, s.procs[p].phase) && !s.foreign
    ensures EventsIn(s.file, s.excluded) <= EventsIn(s'.file, s.excluded)
  {
    var phase := s.procs[p].phase;
    var log := s.log[..phase.head.log.position];
    StreamPayload(Authored(log, s.excluded));
    HeadCarries(log, version, s.excluded);
  }

  lemma RepairExtends(s: State, version: Version, s': State)
    requires FilesOk(s) && Repairs(s, version) && s'.file == Some(version) && !s.foreign
    ensures EventsIn(s.file, s.excluded) <= EventsIn(s'.file, s.excluded)
  {
    HeadCarries(s.log, version, s.excluded);
  }

  lemma BeginLeavesFile(s: State, step: Step, s': State)
    requires Begins(step) && BeginStep(s, step) == Some(s')
    ensures s'.file == s.file
  {
    if step.Prove? {
      var proof := Preflight(s.log, s.file, s.excluded, s.procs[step.p].memo, step.blind);
    }
  }

  /** Only a rename, a repair, a rewrite and a power loss change the committed file. */
  lemma FileStays(s: State, step: Step, s': State)
    requires Apply(s, step) == Some(s') && !step.Rename? && !step.RepairStops? && !step.Repair? && !s'.foreign && !s'.lost
    ensures s'.file == s.file
  {
    if Begins(step) {
      BeginLeavesFile(s, step, s');
    } else if step.ReadForPublish? {
      ReadFlags(s, step.p, s');
    }
  }

  lemma StepExtends(s: State, step: Step, s': State)
    requires Inv(s) && Apply(s, step) == Some(s') && !s'.foreign && !s'.lost
    ensures EventsIn(s.file, s.excluded) <= EventsIn(s'.file, s.excluded)
  {
    FlagsStick(s, step, s');
    match step
    case Rename(p, version) => assert ProcessOk(s, s.procs[p]); RenameExtends(s, p, version, s');
    case RepairStops(version) => RepairExtends(s, version, s');
    case Repair(version, _, _) => RepairExtends(s, version, s');
    case _ => FileStays(s, step, s');
  }

  /** Successive committed bundles are a chain of prefixes, as long as the power holds. */
  lemma {:induction false} BundlesFormAChain(s: State, steps: seq<Step>, s': State)
    requires Inv(s) && Run(s, steps) == Some(s') && !s'.foreign && !s'.lost
    ensures EventsIn(s.file, s.excluded) <= EventsIn(s'.file, s.excluded)
    decreases |steps|
  {
    if steps == [] {
    } else {
      var next := Apply(s, steps[0]).value;
      RunFlags(next, steps[1..], s');
      FlagsStick(s, steps[0], next);
      StepExtends(s, steps[0], next);
      StepKeeps(s, steps[0], next);
      BundlesFormAChain(next, steps[1..], s');
    }
  }

  /** A durable marker without its guard: nobody is past the lock. */
  predicate Orphaned(s: State, marker: nat) {
    && marker in s.markers && marker in s.durable
    && (forall q :: q in s.procs ==> q.phase.Idle? || q.phase.Locked?)
  }

  predicate Waits(q: Process) { q.phase.Idle? || q.phase.Locked? }

  /** The processes stay as they are, or wait. */
  predicate AllWait(s: State, s': State) {
    |s'.procs| == |s.procs| && forall p :: 0 <= p < |s'.procs| ==> s'.procs[p] == s.procs[p] || Waits(s'.procs[p])
  }

  lemma BeginWaits(s: State, marker: nat, step: Step, s': State)
    requires Orphaned(s, marker) && Begins(step) && BeginStep(s, step) == Some(s')
    ensures marker in s'.markers && marker in s'.durable && AllWait(s, s')
  {
    if step.p < |s.procs| { assert s.procs[step.p] in s.procs; }
  }

  lemma WriteWaits(s: State, marker: nat, step: Step)
    requires Orphaned(s, marker) && Writes(step)
    ensures WriteStep(s, step) == None
  {
    if step.p < |s.procs| { assert s.procs[step.p] in s.procs; }
  }

  lemma OutsideWaits(s: State, marker: nat, step: Step, s': State)
    requires Orphaned(s, marker) && !Begins(step) && !Writes(step) && !step.Repair? && OutsideStep(s, step) == Some(s')
    ensures marker in s'.markers && marker in s'.durable && AllWait(s, s')
  {
  }

  /** While a marker is pending, a step leaves the markers alone and nobody gets past the lock. */
  lemma WaitersWait(s: State, marker: nat, step: Step, s': State)
    requires Orphaned(s, marker) && Apply(s, step) == Some(s') && !step.Repair?
    ensures marker in s'.markers && marker in s'.durable && AllWait(s, s')
  {
    if Begins(step) {
      BeginWaits(s, marker, step, s');
    } else if Writes(step) {
      WriteWaits(s, marker, step);
    } else {
      OutsideWaits(s, marker, step, s');
    }
  }

  lemma OrphanStays(s: State, marker: nat, step: Step, s': State)
    requires Orphaned(s, marker) && Apply(s, step) == Some(s') && !step.Repair?
    ensures Orphaned(s', marker)
  {
    WaitersWait(s, marker, step, s');
    forall p | 0 <= p < |s'.procs|
      ensures Waits(s'.procs[p])
    {
      assert s.procs[p] in s.procs;
    }
  }

  /** Until it is cleared by a repair, an orphan marker makes every later write refuse to begin:
      through any number of attempts, crashes and power losses. */
  lemma {:induction false} OrphanBlocks(s: State, marker: nat, steps: seq<Step>, s': State)
    requires Orphaned(s, marker) && Run(s, steps) == Some(s')
    requires forall step :: step in steps ==> !step.Repair?
    ensures Orphaned(s', marker)
    decreases |steps|
  {
    if steps == [] {
    } else {
      var next := Apply(s, steps[0]).value;
      OrphanStays(s, marker, steps[0], next);
      assert forall step :: step in steps[1..] ==> step in steps;
      OrphanBlocks(next, marker, steps[1..], s');
    }
  }

  /** A crash with an open guard leaves such an orphan. */
  lemma CrashOrphans(s0: State, steps: seq<Step>, s: State, p: nat, step: Step, s': State)
    requires Initial(s0) && Run(s0, steps) == Some(s)
    requires p < |s.procs| && s.procs[p].phase.Guards()
    requires step in {Crash(p), Abandon(p)} && Apply(s, step) == Some(s')
    ensures Orphaned(s', s.procs[p].phase.marker)
  {
    GuardDiscipline(s0, steps, s, p, p);
    forall q | 0 <= q < |s'.procs|
      ensures s'.procs[q].phase.Idle?
    {
      GuardDiscipline(s0, steps, s, p, q);
    }
  }

  // ---- two limits ----

  lemma {:induction false} RunAppend(s: State, left: seq<Step>, right: seq<Step>, mid: State)
    requires Run(s, left) == Some(mid)
    ensures Run(s, left + right) == Run(mid, right)
    decreases |left|
  {
    if left == [] {
      assert left + right == right;
    } else {
      assert (left + right)[1..] == left[1..] + right;
      RunAppend(Apply(s, left[0]).value, left[1..], right, mid);
    }
  }

  /** One more step at the end of a run. */
  lemma RunSnoc(s: State, steps: seq<Step>, mid: State, step: Step, s': State)
    requires Run(s, steps) == Some(mid) && Apply(mid, step) == Some(s')
    ensures Run(s, steps + [step]) == Some(s')
  {
    RunAppend(s, steps, [step], mid);
    assert [step][1..] == [];
    assert Run(s', []) == Some(s');
  }

  /** An empty store with one process and no committed file. */
  const EMPTY_SITE: State :=
    State({}, [], None, {None}, {}, {}, {}, 0, None, [FRESH], false, false, false)

  const EMPTY_START: Start := Start(None, None, EMPTY_STREAM.Encode())

  /** The same site with markers `markers`, `durable` left, `next` to come, and the process in `phase`. */
  function Site(markers: set<nat>, durable: set<nat>, next: nat, phase: Phase): State {
    EMPTY_SITE.(markers := markers, durable := durable, nextMarker := next,
                lock := if phase.Idle? then None else Some(0), procs := [Process(None, phase)])
  }

  lemma EmptyProof()
    ensures ProveSameHistory([], None, {}) == Ok((None, EMPTY_STREAM.Encode()))
  {
    HeadBundleReadsBack([]);
  }

  lemma SiteLocks(durable: set<nat>, next: nat)
    ensures Apply(Site({}, durable, next, Idle), Lock(0)) == Some(Site({}, durable, next, Locked))
  {
    assert [Process(None, Idle)][0 := Process(None, Locked)] == [Process(None, Locked)];
  }

  lemma SiteProves(durable: set<nat>, next: nat)
    ensures Apply(Site({}, durable, next, Locked), Prove(0, false)) == Some(Site({}, durable, next, Proved(EMPTY_START)))
  {
    EmptyProof();
    assert Preflight([], None, {}, None, false) == Ok(EMPTY_START);
    assert [Process(None, Locked)][0 := Process(None, Proved(EMPTY_START))] == [Process(None, Proved(EMPTY_START))];
  }

  lemma SiteMarks(durable: set<nat>, next: nat)
    ensures Apply(Site({}, durable, next, Proved(EMPTY_START)), CreateMarker(0))
         == Some(Site({next}, durable, next + 1, Marking(EMPTY_START, next)))
  {
    assert {} + {next} == {next};
    assert [Process(None, Proved(EMPTY_START))][0 := Process(None, Marking(EMPTY_START, next))] == [Process(None, Marking(EMPTY_START, next))];
  }

  lemma SiteSyncs(durable: set<nat>, next: nat)
    ensures Apply(Site({next}, durable, next + 1, Marking(EMPTY_START, next)), SyncMarker(0))
         == Some(Site({next}, {next}, next + 1, Open(EMPTY_START, next, false)))
  {
    assert [Process(None, Marking(EMPTY_START, next))][0 := Process(None, Open(EMPTY_START, next, false))] == [Process(None, Open(EMPTY_START, next, false))];
  }

  lemma SiteUnmarks(marker: nat, next: nat)
    ensures Apply(Site({marker}, {marker}, next, Open(EMPTY_START, marker, false)), RemoveMarker(0))
         == Some(Site({}, {marker}, next, Cleared(marker)))
  {
    assert {marker} - {marker} == {};
    assert [Process(None, Open(EMPTY_START, marker, false))][0 := Process(None, Cleared(marker))] == [Process(None, Cleared(marker))];
  }

  lemma SiteAbandons(durable: set<nat>, next: nat, marker: nat)
    ensures Apply(Site({}, durable, next, Cleared(marker)), Abandon(0)) == Some(Site({}, durable, next, Idle))
  {
    assert [Process(None, Cleared(marker))][0 := Process(None, Idle)] == [Process(None, Idle)];
  }

  lemma SiteReads(marker: nat, next: nat)
    ensures Apply(Site({marker}, {marker}, next, Open(EMPTY_START, marker, false)), ReadForPublish(0))
         == Some(Site({marker}, {marker}, next, Publishing(EMPTY_START, marker, false, HeadOf([], {}))))
  {
    HeadBundleReadsBack([]);
    MergeIffPrefix(EMPTY_STREAM.Encode(), EMPTY_STREAM.Encode());
    assert Authored([], {}) == [];
    assert PublishHead([], None, {}, EMPTY_START) == Ok(HeadOf([], {}));
    assert [Process(None, Open(EMPTY_START, marker, false))][0 := Process(None, Publishing(EMPTY_START, marker, false, HeadOf([], {})))] == [Process(None, Publishing(EMPTY_START, marker, false, HeadOf([], {})))];
  }

  const OPENING: seq<Step> := [Lock(0), Prove(0, false), CreateMarker(0), SyncMarker(0)]

  lemma OpeningRuns()
    ensures Initial(EMPTY_SITE)
    ensures Run(EMPTY_SITE, OPENING) == Some(Site({0}, {0}, 1, Open(EMPTY_START, 0, false)))
  {
    assert EventsIn(None, {}) == [] == Authored([], {});
    assert EMPTY_SITE == Site({}, {}, 0, Idle);
    SiteLocks({}, 0);
    RunSnoc(EMPTY_SITE, [], EMPTY_SITE, Lock(0), Site({}, {}, 0, Locked));
    assert [] + [Lock(0)] == [Lock(0)];
    BeginningRuns([Lock(0)], {}, 0);
  }

  /** The rest of a beginning, once the lock is held. */
  lemma BeginningRuns(steps: seq<Step>, durable: set<nat>, next: nat)
    requires Run(EMPTY_SITE, steps) == Some(Site({}, durable, next, Locked))
    ensures Run(EMPTY_SITE, steps + [Prove(0, false), CreateMarker(0)])
         == Some(Site({next}, durable, next + 1, Marking(EMPTY_START, next)))
    ensures Run(EMPTY_SITE, steps + [Prove(0, false), CreateMarker(0), SyncMarker(0)])
         == Some(Site({next}, {next}, next + 1, Open(EMPTY_START, next, false)))
  {
    var proved, marking := steps + [Prove(0, false)], steps + [Prove(0, false), CreateMarker(0)];
    SiteProves(durable, next);
    RunSnoc(EMPTY_SITE, steps, Site({}, durable, next, Locked), Prove(0, false),
            Site({}, durable, next, Proved(EMPTY_START)));
    SiteMarks(durable, next);
    RunSnoc(EMPTY_SITE, proved, Site({}, durable, next, Proved(EMPTY_START)), CreateMarker(0),
            Site({next}, durable, next + 1, Marking(EMPTY_START, next)));
    assert proved + [CreateMarker(0)] == marking;
    SiteSyncs(durable, next);
    RunSnoc(EMPTY_SITE, marking, Site({next}, durable, next + 1, Marking(EMPTY_START, next)), SyncMarker(0),
            Site({next}, {next}, next + 1, Open(EMPTY_START, next, false)));
    assert marking + [SyncMarker(0)] == steps + [Prove(0, false), CreateMarker(0), SyncMarker(0)];
  }

  /** A process can be between its check and its rename, */
  lemma PublishingIsReachable() returns (steps: seq<Step>, s: State)
    ensures Initial(EMPTY_SITE) && Run(EMPTY_SITE, steps) == Some(s)
    ensures |s.procs| == 1 && s.procs[0].phase.Publishing? && !s.foreign
  {
    OpeningRuns();
    SiteReads(0, 1);
    s := Site({0}, {0}, 1, Publishing(EMPTY_START, 0, false, HeadOf([], {})));
    RunSnoc(EMPTY_SITE, OPENING, Site({0}, {0}, 1, Open(EMPTY_START, 0, false)), ReadForPublish(0), s);
    steps := OPENING + [ReadForPublish(0)];
  }

  /** and whatever is written there between the two is replaced unseen: this is why runs with a
      rewrite inside a publish are set apart. */
  lemma RewriteInsidePublishIsLost(s: State, p: nat, content: Version, s': State, version: Version)
    requires p < |s.procs| && s.procs[p].phase.Publishing?
    requires content.text != version.text
    requires Apply(s, Rewrite(Some(content))) == Some(s')
    requires version.text == s.procs[p].phase.head.stream.Encode() && StampsTell(s'.history + {version})
    ensures s'.raced && TextOf(s'.file) == Some(content.text)
    ensures Apply(s', Rename(p, version)).Some?
    ensures TextOf(Apply(s', Rename(p, version)).value.file) == Some(version.text)
  {
    assert s.procs[p] in s.procs;
  }

  /** Why only a power loss can leave two markers: a removal that was not made durable comes
      back beside the next write's marker. */
  /** A second marker comes by nothing but a loss of power. */
  lemma OneMarkerStays(s: State, step: Step, s': State)
    requires Inv(s) && |s.markers| <= 1 && Apply(s, step) == Some(s') && !step.PowerLoss?
    ensures |s'.markers| <= 1
  {
    if step.CreateMarker? {
      assert ProcessOk(s, s.procs[step.p]);
      assert s'.markers == {s.nextMarker};
    } else {
      MarkersShrink(s, step, s');
      SubsetSize(s'.markers, s.markers);
    }
  }

  lemma MarkersShrink(s: State, step: Step, s': State)
    requires Apply(s, step) == Some(s') && !step.PowerLoss? && !step.CreateMarker?
    ensures s'.markers <= s.markers
  {
    if step.Prove? {
      var proof := Preflight(s.log, s.file, s.excluded, s.procs[step.p].memo, step.blind);
    } else if step.ReadForPublish? {
      ReadFlags(s, step.p, s');
    }
  }

  /** One can come exactly where some removal is not durable yet. */
  lemma SecondMarkerIff(s: State)
    requires Inv(s) && |s.markers| <= 1
    ensures (exists step :: Apply(s, step).Some? && |Apply(s, step).value.markers| > 1) <==> |s.markers + s.durable| > 1
  {
    if exists step :: Apply(s, step).Some? && |Apply(s, step).value.markers| > 1 {
      var step :| Apply(s, step).Some? && |Apply(s, step).value.markers| > 1;
      if step.PowerLoss? {
        SubsetSize(step.left, s.markers + s.durable);
      } else {
        OneMarkerStays(s, step, Apply(s, step).value);
      }
    }
    if |s.markers + s.durable| > 1 {
      var step := PowerLoss(s.file, s.markers + s.durable);
      assert Apply(s, step).Some? && |Apply(s, step).value.markers| > 1;
    }
  }

  lemma PowerLossLeaves(s: State, kept: Option<Version>, left: set<nat>)
    ensures Apply(s, PowerLoss(kept, left)).Some? ==> kept in s.survivors && Apply(s, PowerLoss(kept, left)).value.file == kept
    ensures kept in s.survivors ==> Apply(s, PowerLoss(kept, s.markers + s.durable)).Some?
  {
  }

  /** The content a loss of power leaves continues the one in place. */
  predicate Continued(s: State, kept: Option<Version>, left: set<nat>) {
    Apply(s, PowerLoss(kept, left)).Some? ==>
      EventsIn(s.file, s.excluded) <= EventsIn(Apply(s, PowerLoss(kept, left)).value.file, s.excluded)
  }

  /** A loss of power keeps the chain of bundles exactly where no content it could leave is behind
      the one in place. */
  lemma PowerLossKeepsChainIff(s: State)
    ensures (forall kept, left :: Continued(s, kept, left))
       <==> forall f :: f in s.survivors ==> EventsIn(s.file, s.excluded) <= EventsIn(f, s.excluded)
  {
    forall kept, left
      ensures (forall f :: f in s.survivors ==> EventsIn(s.file, s.excluded) <= EventsIn(f, s.excluded)) ==> Continued(s, kept, left)
    {
      PowerLossLeaves(s, kept, left);
    }
    forall f | f in s.survivors
      ensures Continued(s, f, s.markers + s.durable) ==> EventsIn(s.file, s.excluded) <= EventsIn(f, s.excluded)
    {
      PowerLossLeaves(s, f, s.markers + s.durable);
    }
  }

  /** Between a publish and its look at the stamp, another content's stamp is remembered as its own:
      the tail then holds, whatever that content is. */
  lemma RewriteBeforeRememberIsTrusted(s: State, p: nat, content: Version, s': State)
    requires Inv(s) && p < |s.procs| && s.procs[p].phase.Settled? && s.log == s.log[..s.procs[p].phase.head.log.position]
    requires Apply(s, Rewrite(Some(content))) == Some(s')
    ensures s'.raced && Apply(s', Remember(p, false)).Some?
    ensures var t := Apply(s', Remember(p, false)).value;
            && t.procs[p].memo.Some? && t.procs[p].memo.value.file == content.stamp
            && Holds(t.procs[p].memo.value, t.log, t.file) && TextOf(t.file) == Some(content.text)
  {
    assert s.procs[p] in s.procs;
    assert ProcessOk(s, s.procs[p]);
  }

  lemma TwoMarkersAfterPowerLoss() returns (steps: seq<Step>, s: State)
    ensures Run(EMPTY_SITE, steps) == Some(s)
    ensures !s.foreign && |s.markers| == 2
  {
    OpeningRuns();
    SiteUnmarks(0, 1);
    RunSnoc(EMPTY_SITE, OPENING, Site({0}, {0}, 1, Open(EMPTY_START, 0, false)),
            RemoveMarker(0), Site({}, {0}, 1, Cleared(0)));
    steps := OPENING + [RemoveMarker(0)];
    SiteAbandons({0}, 1, 0);
    RunSnoc(EMPTY_SITE, steps, Site({}, {0}, 1, Cleared(0)), Abandon(0), Site({}, {0}, 1, Idle));
    steps := steps + [Abandon(0)];
    SiteLocks({0}, 1);
    RunSnoc(EMPTY_SITE, steps, Site({}, {0}, 1, Idle), Lock(0), Site({}, {0}, 1, Locked));
    steps := steps + [Lock(0)];
    BeginningRuns(steps, {0}, 1);
    steps := steps + [Prove(0, false), CreateMarker(0)];
    var marking := Site({1}, {0}, 2, Marking(EMPTY_START, 1));
    s := marking.(markers := {0, 1}, durable := {0, 1}, lock := None, procs := [FRESH], lost := true);
    PowerFails(marking, s);
    RunSnoc(EMPTY_SITE, steps, marking, PowerLoss(None, {0, 1}), s);
    steps := steps + [PowerLoss(None, {0, 1})];
    assert s.markers == {0} + {1};
  }

  lemma PowerFails(marking: State, s: State)
    requires marking == Site({1}, {0}, 2, Marking(EMPTY_START, 1))
    requires s == marking.(markers := {0, 1}, durable := {0, 1}, lock := None, procs := [FRESH], lost := true)
    ensures Apply(marking, PowerLoss(None, {0, 1})) == Some(s)
  {
    assert {1} * {0} == {} && {1} + {0} == {0, 1};
    assert seq(1, _ => FRESH) == [FRESH];
  }
}
