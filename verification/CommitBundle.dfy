/**
 * The guarded write as the code performs it: one process's bundle, the volume it shares with
 * others, and the write guard that calls it. Every call is a run of the protocol.
 */
module CommitBundle {
  import opened Prelude
  import opened Bundles
  import opened CommittedTails
  import opened SameHistory
  import opened WriteProtocol

  class EventStore {
    var log: Log

    constructor ()
      ensures log == []
    {
      log := [];
    }
  }

  /** The directories a store and its committed bundle live in. */
  class Volume {
    var file: Option<Version>
    var markers: set<nat>
    var nextMarker: nat
    var lock: Option<nat>
    ghost var survivors: set<Option<Version>>
    ghost var history: set<Version>
    ghost var durable: set<nat>

    /** Rename of a complete temporary file onto the canonical path. */
    method Replace(version: Version)
      modifies this`file, this`survivors, this`history
      ensures file == Some(version)
      ensures survivors == old(survivors) + {Some(version)} && history == old(history) + {version}
    {
      file := Some(version);
      survivors := survivors + {Some(version)};
      history := history + {version};
    }

    method SyncBundleDirectory()
      modifies this`survivors
      ensures survivors == {file}
    {
      survivors := {file};
    }

    method SyncMarkerDirectory()
      modifies this`durable
      ensures durable == markers
    {
      durable := markers;
    }

    method Unlock()
      modifies this`lock
      ensures lock == None
    {
      lock := None;
    }
  }

  /** What `begin_write` returns; the lock it holds is the volume's. */
  class PendingBundleExport {
    const marker: nat
    const canonicalBefore: Option<Text>
    const liveBefore: Text
    var tail: Option<CommittedTail>

    constructor (marker: nat, canonicalBefore: Option<Text>, liveBefore: Text, tail: Option<CommittedTail>)
      ensures this.marker == marker && this.canonicalBefore == canonicalBefore
      ensures this.liveBefore == liveBefore && this.tail == tail
    {
      this.marker := marker;
      this.canonicalBefore := canonicalBefore;
      this.liveBefore := liveBefore;
      this.tail := tail;
    }

    function Begun(): Start
      reads this
    {
      Start(tail, canonicalBefore, liveBefore)
    }
  }

  /** How marking goes wrong: before the marker exists, or before it is durable. */
  datatype MarkerFault = NoMarkerFault | NotCreated | NotDurable

  /** `blind`: the metadata of the committed file cannot be read. */
  datatype BeginIo = BeginIo(blind: bool, fault: MarkerFault)

  datatype PublishFault = NoPublishFault | RenameFails | SyncFails

  /** `stamp`: the length and time the new file gets. */
  datatype PublishIo = PublishIo(stamp: FileStamp, fault: PublishFault, blind: bool)

  datatype CompleteFault = NoCompleteFault | RemoveFails | RemovalNotSynced

  lemma PutTwice(procs: seq<Process>, id: nat, first: Process, second: Process)
    requires id < |procs|
    ensures procs[id := first][id := second] == procs[id := second]
    ensures procs[id := first][id] == first
  {
  }

  lemma ProveApplies(s: State, id: nat, blind: bool, memo: Option<CommittedTail>, r: Result<Start, PortError>)
    requires id < |s.procs| && s.procs[id] == Process(memo, Locked) && s.markers == {} && s.lock == Some(id)
    requires r == Preflight(s.log, s.file, s.excluded, memo, blind)
    ensures Apply(s, Prove(id, blind)) ==
            Some(s.(lock := if r.Ok? then Some(id) else None,
                    procs := s.procs[id := Process(None, if r.Ok? then Proved(r.value) else Idle)]))
  {
  }

  /** One process's handle on the committed bundle. */
  lemma RepairApplies(s: State, version: Version, removed: set<nat>, left: set<nat>)
    requires Repairs(s, version) && (left == s.durable || left == s.markers - removed)
    ensures Apply(s, Repair(version, removed, left))
         == Some(Written(s, Some(version)).(survivors := {Some(version)}, markers := s.markers - removed, durable := left))
  {
  }

  class CommitNativeBundle {
    const id: nat
    const volume: Volume
    const excluded: set<string>
    var published: Option<CommittedTail>

    constructor (id: nat, volume: Volume, excluded: set<string>)
      ensures this.id == id && this.volume == volume && this.excluded == excluded && published == None
    {
      this.id := id;
      this.volume := volume;
      this.excluded := excluded;
      published := None;
    }

    /** The protocol's state: this process in `phase`, everyone and everything else as in `rest`. */
    ghost function View(rest: State, store: EventStore, phase: Phase): State
      requires id < |rest.procs|
      reads this, volume, store
    {
      rest.(excluded := excluded, log := store.log,
            file := volume.file, survivors := volume.survivors, history := volume.history,
            markers := volume.markers, durable := volume.durable, nextMarker := volume.nextMarker,
            lock := volume.lock, procs := rest.procs[id := Process(published, phase)])
    }

    /** The lock and the pending check. */
    method Acquire(store: EventStore, ghost rest: State) returns (ok: bool, ghost steps: seq<Step>)
      requires id < |rest.procs|
      modifies volume`lock
      ensures ok <==> old(volume.lock).None? && volume.markers == {}
      ensures volume.lock == if ok then Some(id) else old(volume.lock)
      ensures Run(old(View(rest, store, Idle)), steps) == Some(View(rest, store, if ok then Locked else Idle))
    {
      ghost var s0 := View(rest, store, Idle);
      if volume.lock.Some? {
        return false, [];
      }
      volume.lock := Some(id);
      ghost var s1 := View(rest, store, Locked);
      PutTwice(rest.procs, id, Process(published, Idle), Process(published, Locked));
      RunSnoc(s0, [], s0, Lock(id), s1);
      steps := [] + [Lock(id)];
      if volume.markers != {} {
        volume.Unlock();
        PutTwice(rest.procs, id, Process(published, Locked), Process(published, Idle));
        RunSnoc(s0, steps, s1, Refuse(id), View(rest, store, Idle));
        return false, steps + [Refuse(id)];
      }
      return true, steps;
    }

    /** The tail check, or else the full one. */
    method CheckHistory(store: EventStore, taken: Option<CommittedTail>, blind: bool) returns (r: Result<Start, PortError>)
      ensures r == Preflight(store.log, volume.file, excluded, taken, blind)
    {
      if taken.Some? && !blind && Holds(taken.value, store.log, volume.file) {
        return Ok(Start(taken, None, Undecodable));
      }
      match ProveSameHistory(store.log, volume.file, excluded)
      case Err(error) =>
        return Err(error);
      case Ok((canonical, live)) =>
        return Ok(Start(None, canonical, live));
    }

    /** Whatever the check says, the memo is taken; a refusal lets go of the lock. */
    method ProveBegun(store: EventStore, blind: bool, ghost rest: State) returns (r: Result<Start, PortError>)
      requires id < |rest.procs| && volume.lock == Some(id) && volume.markers == {}
      modifies this`published, volume`lock
      ensures published == None
      ensures volume.lock == if r.Ok? then Some(id) else None
      ensures r == Preflight(store.log, volume.file, excluded, old(published), blind)
      ensures Apply(old(View(rest, store, Locked)), Prove(id, blind))
           == Some(View(rest, store, if r.Ok? then Proved(r.value) else Idle))
    {
      ghost var s0 := View(rest, store, Locked);
      ghost var memo := published;
      var taken := published;
      published := None;
      r := CheckHistory(store, taken, blind);
      if r.Err? {
        volume.Unlock();
      }
      ProveApplies(s0, id, blind, memo, r);
      PutTwice(rest.procs, id, Process(memo, Locked), Process(None, if r.Ok? then Proved(r.value) else Idle));
    }

    /** `mark_pending`: the marker exists, and is durable before anything else can happen. */
    method MarkPending(store: EventStore, start: Start, fault: MarkerFault, ghost rest: State)
      returns (r: Result<nat, PortError>, ghost steps: seq<Step>)
      requires id < |rest.procs| && volume.lock == Some(id)
      modifies volume`markers, volume`nextMarker, volume`lock, volume`durable
      ensures r.Ok? <==> fault == NoMarkerFault
      ensures volume.lock == if r.Ok? then Some(id) else None
      ensures r.Ok? ==> r.value == old(volume.nextMarker) && volume.markers == old(volume.markers) + {r.value}
                        && volume.durable == volume.markers
      ensures fault == NotCreated ==> volume.markers == old(volume.markers) && volume.durable == old(volume.durable)
      ensures Run(old(View(rest, store, Proved(start))), steps)
           == Some(View(rest, store, if r.Ok? then Open(start, r.value, false) else Idle))
    {
      ghost var s0 := View(rest, store, Proved(start));
      if fault == NotCreated {
        volume.Unlock();
        PutTwice(rest.procs, id, Process(published, Proved(start)), Process(published, Idle));
        RunSnoc(s0, [], s0, Abandon(id), View(rest, store, Idle));
        return Err(Unavailable), [] + [Abandon(id)];
      }
      var marker := volume.nextMarker;
      volume.markers, volume.nextMarker := volume.markers + {marker}, marker + 1;
      ghost var s1 := View(rest, store, Marking(start, marker));
      PutTwice(rest.procs, id, Process(published, Proved(start)), Process(published, Marking(start, marker)));
      RunSnoc(s0, [], s0, CreateMarker(id), s1);
      ghost var step := if fault == NotDurable then Abandon(id) else SyncMarker(id);
      steps := [] + [CreateMarker(id)];
      SettleMarker(store, start, marker, fault == NoMarkerFault, rest);
      RunSnoc(s0, steps, s1, step, View(rest, store, if fault == NotDurable then Idle else Open(start, marker, false)));
      return if fault == NotDurable then Err(Unavailable) else Ok(marker), steps + [step];
    }

    /** The new marker made durable, or the guard given up before it was. */
    method SettleMarker(store: EventStore, start: Start, marker: nat, durable: bool, ghost rest: State)
      requires id < |rest.procs| && volume.lock == Some(id)
      modifies volume`lock, volume`durable
      ensures volume.lock == if durable then Some(id) else None
      ensures volume.durable == if durable then volume.markers else old(volume.durable)
      ensures Apply(old(View(rest, store, Marking(start, marker))), if durable then SyncMarker(id) else Abandon(id))
           == Some(View(rest, store, if durable then Open(start, marker, false) else Idle))
    {
      PutTwice(rest.procs, id, Process(published, Marking(start, marker)),
               Process(published, if durable then Open(start, marker, false) else Idle));
      if durable {
        volume.SyncMarkerDirectory();
      } else {
        volume.Unlock();
      }
    }

    /** `begin_write`: refused, and then nothing but the memo and an orphan marker may have
        changed; or begun on one history with a durable marker. */
    method BeginWrite(store: EventStore, io: BeginIo, ghost rest: State)
      returns (r: Result<PendingBundleExport, PortError>, ghost steps: seq<Step>)
      requires id < |rest.procs|
      modifies this`published, volume`markers, volume`nextMarker, volume`lock, volume`durable
      ensures old(volume.lock).Some? || old(volume.markers) != {} ==>
                r == Err(Conflict) && published == old(published)
                && volume.markers == old(volume.markers) && volume.durable == old(volume.durable)
      ensures r.Ok? ==>
                && fresh(r.value) && published == None && volume.lock == Some(id)
                && volume.markers == {r.value.marker} && volume.durable == {r.value.marker}
                && (match r.value.tail
                    case Some(tail) => old(published) == Some(tail) && Holds(tail, store.log, volume.file)
                    case None => ProveSameHistory(store.log, volume.file, excluded)
                                 == Ok((r.value.canonicalBefore, r.value.liveBefore)))
      ensures r.Err? ==> volume.lock == old(volume.lock)
      ensures r.Err? && io.fault != NotDurable ==> volume.markers == old(volume.markers)
      ensures Run(old(View(rest, store, Idle)), steps)
           == Some(View(rest, store, if r.Ok? then Open(r.value.Begun(), r.value.marker, false) else Idle))
    {
      ghost var s0 := View(rest, store, Idle);
      var ok;
      ok, steps := Acquire(store, rest);
      if !ok {
        return Err(Conflict), steps;
      }
      ghost var s1 := View(rest, store, Locked);
      var proof := ProveBegun(store, io.blind, rest);
      ghost var s2 := View(rest, store, if proof.Ok? then Proved(proof.value) else Idle);
      RunSnoc(s0, steps, s1, Prove(id, io.blind), s2);
      steps := steps + [Prove(id, io.blind)];
      if proof.Err? {
        return Err(proof.error), steps;
      }
      var start := proof.value;
      var marker;
      ghost var marking;
      marker, marking := MarkPending(store, start, io.fault, rest);
      RunAppend(s0, steps, marking, s2);
      steps := steps + marking;
      if marker.Err? {
        return Err(marker.error), steps;
      }
      var pending := new PendingBundleExport(marker.value, start.canonicalBefore, start.liveBefore, start.tail);
      return Ok(pending), steps;
    }

    /** What a publish from the tail would write. */
    method TailHead(store: EventStore, tail: CommittedTail) returns (r: Result<ReadHead, PortError>)
      ensures r == FastHead(store.log, volume.file, excluded, tail)
    {
      if !FileIsOurs(tail, volume.file) {
        return Err(Conflict);
      }
      var head := Extended(tail, store.log, excluded);
      match head {
        case None => return Err(Conflict);
        case Some(extended) => return Ok(extended);
      }
    }

    /** What a full publish would write. */
    method FullHead(store: EventStore, start: Start) returns (r: Result<ReadHead, PortError>)
      ensures r == SlowHead(store.log, volume.file, excluded, start)
    {
      var head := Read(store.log, excluded);
      var bundle := head.stream.Encode();
      var parsed := Parse(bundle);
      if parsed.Err? {
        return Err(parsed.error);
      }
      var merged := Merge(start.liveBefore, bundle);
      if merged.Err? {
        return Err(merged.error);
      }
      if |parsed.value| < |Parse(start.liveBefore).value| {
        return Err(Conflict);
      }
      if TextOf(volume.file) != start.canonicalBefore {
        return Err(Conflict);
      }
      return Ok(head);
    }

    /** The head, from the tail or in full; the tail is gone from the guard either way. */
    method ReadPublished(store: EventStore, pending: PendingBundleExport, ghost dirty: bool, ghost rest: State)
      returns (r: Result<ReadHead, PortError>)
      requires id < |rest.procs|
      modifies pending
      ensures pending.tail == None
      ensures r == PublishHead(store.log, volume.file, excluded, old(pending.Begun()))
      ensures Apply(old(View(rest, store, Open(pending.Begun(), pending.marker, dirty))), ReadForPublish(id))
           == Some(View(rest, store,
                        if r.Ok? then Publishing(old(pending.Begun()), pending.marker, dirty, r.value)
                        else Open(old(pending.Begun()).Spent(), pending.marker, dirty)))
    {
      ghost var start, m := pending.Begun(), pending.marker;
      var tail := pending.tail;
      pending.tail := None;
      if tail.Some? {
        r := TailHead(store, tail.value);
      } else {
        r := FullHead(store, Start(None, pending.canonicalBefore, pending.liveBefore));
      }
      PutTwice(rest.procs, id, Process(published, Open(start, m, dirty)),
               Process(published, if r.Ok? then Publishing(start, m, dirty, r.value) else Open(start.Spent(), m, dirty)));
    }

    /** The temporary file takes the canonical name. */
    method RenameInto(
        store: EventStore, head: ReadHead, stamp: FileStamp,
        ghost start: Start, ghost marker: nat, ghost dirty: bool, ghost rest: State)
      returns (ghost version: Version)
      requires id < |rest.procs|
      requires (forall v :: v in volume.history ==> v.stamp != stamp) && StampsTell(volume.history)
      modifies volume`file, volume`survivors, volume`history
      ensures version == Version(head.stream.Encode(), stamp)
      ensures volume.file == Some(version) && volume.survivors == old(volume.survivors) + {volume.file}
      ensures Apply(old(View(rest, store, Publishing(start, marker, dirty, head))), Rename(id, version))
           == Some(View(rest, store, Renamed(start, marker, dirty, head)))
    {
      version := Version(head.stream.Encode(), stamp);
      assert StampsTell(volume.history + {version});
      volume.Replace(Version(head.stream.Encode(), stamp));
      PutTwice(rest.procs, id, Process(published, Publishing(start, marker, dirty, head)),
               Process(published, Renamed(start, marker, dirty, head)));
    }

    /** The renamed file is durable, or the publish has failed after the rename. */
    method SettleOrFail(
        store: EventStore, head: ReadHead, fails: bool,
        ghost start: Start, ghost marker: nat, ghost dirty: bool, ghost rest: State)
      returns (ghost step: Step)
      requires id < |rest.procs|
      modifies volume`survivors
      ensures volume.survivors == if fails then old(volume.survivors) else {volume.file}
      ensures Apply(old(View(rest, store, Renamed(start, marker, dirty, head))), step)
           == Some(View(rest, store,
                        if fails then Open(start.Spent(), marker, dirty) else Settled(start, marker, dirty, head)))
    {
      ghost var renamed := Process(published, Renamed(start, marker, dirty, head));
      if fails {
        PutTwice(rest.procs, id, renamed, Process(published, Open(start.Spent(), marker, dirty)));
        step := PublishFails(id);
      } else {
        volume.SyncBundleDirectory();
        PutTwice(rest.procs, id, renamed, Process(published, Settled(start, marker, dirty, head)));
        step := SyncDirectory(id);
      }
    }

    /** `write_bundle_atomically` on the canonical path, as far as it gets. */
    method PutInPlace(
        store: EventStore, head: ReadHead, io: PublishIo,
        ghost start: Start, ghost marker: nat, ghost dirty: bool, ghost rest: State)
      returns (ok: bool, ghost steps: seq<Step>)
      requires id < |rest.procs|
      requires (forall v :: v in volume.history ==> v.stamp != io.stamp) && StampsTell(volume.history)
      modifies volume`file, volume`survivors, volume`history
      ensures ok <==> io.fault == NoPublishFault
      ensures volume.file == if io.fault == RenameFails then old(volume.file)
                             else Some(Version(head.stream.Encode(), io.stamp))
      ensures volume.survivors == if ok then {volume.file}
                                  else if io.fault == RenameFails then old(volume.survivors)
                                  else old(volume.survivors) + {volume.file}
      ensures Run(old(View(rest, store, Publishing(start, marker, dirty, head))), steps)
           == Some(View(rest, store, if ok then Settled(start, marker, dirty, head) else Open(start.Spent(), marker, dirty)))
    {
      ghost var s0 := View(rest, store, Publishing(start, marker, dirty, head));
      ghost var failed := Process(published, Open(start.Spent(), marker, dirty));
      if io.fault == RenameFails {
        PutTwice(rest.procs, id, Process(published, Publishing(start, marker, dirty, head)), failed);
        RunSnoc(s0, [], s0, PublishFails(id), View(rest, store, failed.phase));
        return false, [] + [PublishFails(id)];
      }
      ghost var version := RenameInto(store, head, io.stamp, start, marker, dirty, rest);
      ghost var s1 := View(rest, store, Renamed(start, marker, dirty, head));
      RunSnoc(s0, [], s0, Rename(id, version), s1);
      steps := [] + [Rename(id, version)];
      ok := io.fault != SyncFails;
      ghost var settling := SettleOrFail(store, head, !ok, start, marker, dirty, rest);
      RunSnoc(s0, steps, s1, settling,
              View(rest, store, if ok then Settled(start, marker, dirty, head) else Open(start.Spent(), marker, dirty)));
      steps := steps + [settling];
    }

    /** `published.set(CommittedTail::published(..))`. */
    method SetPublished(
        store: EventStore, head: ReadHead, blind: bool,
        ghost start: Start, ghost marker: nat, ghost dirty: bool, ghost rest: State)
      requires id < |rest.procs|
      modifies this`published
      ensures published == if blind || volume.file.None? then None
                           else Some(CommittedTail(volume.file.value.stamp, head.log, head.stream))
      ensures Apply(old(View(rest, store, Settled(start, marker, dirty, head))), Remember(id, blind))
           == Some(View(rest, store, Open(start.Spent(), marker, false)))
    {
      ghost var memo := published;
      published := if blind || volume.file.None? then None
                   else Some(CommittedTail(volume.file.value.stamp, head.log, head.stream));
      PutTwice(rest.procs, id, Process(memo, Settled(start, marker, dirty, head)),
               Process(published, Open(start.Spent(), marker, false)));
    }

    /** `publish`, from the tail the write began on or in full: the committed file becomes the
        bundle of the authored log, durably, and the memo remembers it; or the guard keeps its
        marker and its tail is gone. */
    method Publish(store: EventStore, pending: PendingBundleExport, io: PublishIo, ghost dirty: bool, ghost rest: State)
      returns (r: Result<Header, PortError>, ghost steps: seq<Step>)
      requires id < |rest.procs|
      requires forall v :: v in volume.history ==> v.stamp != io.stamp
      requires StampsTell(volume.history)
      modifies this`published, pending, volume`file, volume`survivors, volume`history
      ensures pending.tail == None
      ensures var head := PublishHead(store.log, old(volume.file), excluded, old(pending.Begun()));
              && (r.Ok? <==> head.Ok? && io.fault == NoPublishFault)
              && (r.Ok? ==>
                    && r.value == head.value.stream.HeadHeader()
                    && volume.file == Some(Version(head.value.stream.Encode(), io.stamp))
                    && volume.survivors == {volume.file}
                    && published == if io.blind then None
                                    else Some(CommittedTail(io.stamp, head.value.log, head.value.stream)))
              && (r.Err? ==>
                    && published == old(published)
                    && volume.file == if head.Ok? && io.fault == SyncFails
                                      then Some(Version(head.value.stream.Encode(), io.stamp)) else old(volume.file))
      ensures Run(old(View(rest, store, Open(pending.Begun(), pending.marker, dirty))), steps)
           == Some(View(rest, store, Open(pending.Begun(), pending.marker, dirty && r.Err?)))
    {
      ghost var start, m := pending.Begun(), pending.marker;
      ghost var s0 := View(rest, store, Open(start, m, dirty));
      var head := ReadPublished(store, pending, dirty, rest);
      ghost var s1 := View(rest, store, if head.Ok? then Publishing(start, m, dirty, head.value) else Open(start.Spent(), m, dirty));
      RunSnoc(s0, [], s0, ReadForPublish(id), s1);
      steps := [] + [ReadForPublish(id)];
      if head.Err? {
        return Err(head.error), steps;
      }
      var ok;
      ghost var writing;
      ok, writing := PutInPlace(store, head.value, io, start, m, dirty, rest);
      RunAppend(s0, steps, writing, s1);
      steps := steps + writing;
      if !ok {
        return Err(Unavailable), steps;
      }
      ghost var s2 := View(rest, store, Settled(start, m, dirty, head.value));
      SetPublished(store, head.value, io.blind, start, m, dirty, rest);
      RunSnoc(s0, steps, s2, Remember(id, io.blind), View(rest, store, Open(start.Spent(), m, false)));
      return Ok(head.value.stream.HeadHeader()), steps + [Remember(id, io.blind)];
    }

    /** The guard's own marker is removed. */
    method RemoveMarker(store: EventStore, marker: nat, ghost start: Start, ghost rest: State)
      requires id < |rest.procs| && volume.lock == Some(id)
      modifies volume`markers
      ensures volume.markers == old(volume.markers) - {marker}
      ensures Apply(old(View(rest, store, Open(start, marker, false))), WriteProtocol.RemoveMarker(id))
           == Some(View(rest, store, Cleared(marker)))
    {
      volume.markers := volume.markers - {marker};
      PutTwice(rest.procs, id, Process(published, Open(start, marker, false)), Process(published, Cleared(marker)));
    }

    /** The removal is made durable, unless that fails; the lock goes in any case. */
    method LetGo(store: EventStore, synced: bool, ghost marker: nat, ghost rest: State)
      requires id < |rest.procs| && volume.lock == Some(id)
      modifies volume`durable, volume`lock
      ensures volume.lock == None && volume.durable == if synced then volume.markers else old(volume.durable)
      ensures Apply(old(View(rest, store, Cleared(marker))), if synced then SyncRemoval(id) else Abandon(id))
           == Some(View(rest, store, Idle))
    {
      if synced {
        volume.SyncMarkerDirectory();
      }
      volume.Unlock();
      PutTwice(rest.procs, id, Process(published, Cleared(marker)), Process(published, Idle));
    }

    /** `complete`: the marker is gone, durably, and then the lock. */
    method Complete(store: EventStore, pending: PendingBundleExport, fault: CompleteFault, ghost rest: State)
      returns (r: Result<(), PortError>, ghost steps: seq<Step>)
      requires id < |rest.procs| && volume.lock == Some(id)
      modifies volume`markers, volume`durable, volume`lock
      ensures r.Ok? <==> fault == NoCompleteFault
      ensures volume.lock == None
      ensures volume.markers == if fault == RemoveFails then old(volume.markers)
                                else old(volume.markers) - {pending.marker}
      ensures volume.durable == if r.Ok? then volume.markers else old(volume.durable)
      ensures Run(old(View(rest, store, Open(pending.Begun(), pending.marker, false))), steps)
           == Some(View(rest, store, Idle))
    {
      ghost var start, m := pending.Begun(), pending.marker;
      ghost var s0 := View(rest, store, Open(start, m, false));
      if fault == RemoveFails {
        volume.Unlock();
        PutTwice(rest.procs, id, Process(published, Open(start, m, false)), Process(published, Idle));
        RunSnoc(s0, [], s0, Abandon(id), View(rest, store, Idle));
        return Err(Unavailable), [] + [Abandon(id)];
      }
      RemoveMarker(store, pending.marker, start, rest);
      ghost var s1 := View(rest, store, Cleared(m));
      RunSnoc(s0, [], s0, WriteProtocol.RemoveMarker(id), s1);
      steps := [] + [WriteProtocol.RemoveMarker(id)];
      LetGo(store, fault == NoCompleteFault, m, rest);
      ghost var last := if fault == NoCompleteFault then SyncRemoval(id) else Abandon(id);
      RunSnoc(s0, steps, s1, last, View(rest, store, Idle));
      return if fault == NoCompleteFault then Ok(()) else Err(Unavailable), steps + [last];
    }

    /** Dropping a guard: the lock goes with its file, the marker stays for `doctor`. */
    method Drop(store: EventStore, ghost phase: Phase, ghost rest: State)
      requires id < |rest.procs| && volume.lock == Some(id) && phase.Open?
      modifies volume`lock
      ensures volume.lock == None
      ensures Apply(old(View(rest, store, phase)), Abandon(id)) == Some(View(rest, store, Idle))
    {
      volume.Unlock();
      PutTwice(rest.procs, id, Process(published, phase), Process(published, Idle));
    }

    /** `finish`: a committed write is published and its marker cleared; a known rejection, after
        which nothing was appended, only clears; anything ambiguous keeps the marker. */
    method Finish(
        store: EventStore, pending: PendingBundleExport, outcome: WriteOutcome, io: PublishIo, fault: CompleteFault,
        ghost dirty: bool, ghost rest: State)
      returns (r: Result<(), PortError>, ghost steps: seq<Step>)
      requires id < |rest.procs| && volume.lock == Some(id)
      requires (forall v :: v in volume.history ==> v.stamp != io.stamp) && StampsTell(volume.history)
      requires outcome == Rejected ==> !dirty
      modifies this`published, pending, volume`file, volume`survivors, volume`history
      modifies volume`markers, volume`durable, volume`lock
      ensures volume.lock == None
      ensures r.Ok? ==>
                var head := PublishHead(store.log, old(volume.file), excluded, old(pending.Begun()));
                && outcome == Committed && head.Ok?
                && volume.file == Some(Version(head.value.stream.Encode(), io.stamp))
                && volume.markers == old(volume.markers) - {pending.marker} && volume.durable == volume.markers
      ensures outcome == Ambiguous || (outcome == Committed && io.fault != NoPublishFault) ==>
                volume.markers == old(volume.markers)
      ensures outcome != Committed ==> volume.file == old(volume.file) && r.Err?
      ensures Run(old(View(rest, store, Open(pending.Begun(), pending.marker, dirty))), steps)
           == Some(View(rest, store, Idle))
    {
      ghost var s0 := View(rest, store, Open(pending.Begun(), pending.marker, dirty));
      steps := [];
      if outcome == Committed {
        var header;
        header, steps := Publish(store, pending, io, dirty, rest);
        if header.Err? {
          steps := DropAfter(store, pending, dirty, s0, steps, rest);
          return Err(Unavailable), steps;
        }
      } else if outcome == Ambiguous {
        steps := DropAfter(store, pending, dirty, s0, steps, rest);
        return Err(Unavailable), steps;
      }
      ghost var s1 := View(rest, store, Open(pending.Begun(), pending.marker, false));
      var cleared;
      ghost var completing;
      cleared, completing := Complete(store, pending, fault, rest);
      RunAppend(s0, steps, completing, s1);
      return if outcome == Committed then cleared else Err(Conflict), steps + completing;
    }

    method DropAfter(
        store: EventStore, pending: PendingBundleExport, ghost dirty: bool,
        ghost s0: State, ghost before: seq<Step>, ghost rest: State)
      returns (ghost steps: seq<Step>)
      requires id < |rest.procs| && volume.lock == Some(id)
      requires Run(s0, before) == Some(View(rest, store, Open(pending.Begun(), pending.marker, dirty)))
      modifies volume`lock
      ensures volume.lock == None
      ensures Run(s0, steps) == Some(View(rest, store, Idle))
    {
      ghost var s1 := View(rest, store, Open(pending.Begun(), pending.marker, dirty));
      Drop(store, s1.procs[id].phase, rest);
      RunSnoc(s0, before, s1, Abandon(id), View(rest, store, Idle));
      steps := before + [Abandon(id)];
    }

    /** The durable export a repair begins with: the authored head, proved before it is written. */
    method ExportHead(store: EventStore, io: PublishIo) returns (r: Result<Version, PortError>)
      requires (forall v :: v in volume.history ==> v.stamp != io.stamp) && StampsTell(volume.history)
      modifies volume`file, volume`survivors, volume`history
      ensures r.Ok? <==> Provable(Authored(store.log, excluded)) && io.fault == NoPublishFault
      ensures r.Err? && Provable(Authored(store.log, excluded)) && io.fault == SyncFails ==>
                var version := Version(StreamOf(Authored(store.log, excluded)).Encode(), io.stamp);
                && volume.file == Some(version) && volume.survivors == old(volume.survivors) + {Some(version)}
                && volume.history == old(volume.history) + {version} && StampsTell(volume.history)
      ensures r.Err? && !(Provable(Authored(store.log, excluded)) && io.fault == SyncFails) ==>
                volume.file == old(volume.file) && volume.survivors == old(volume.survivors) && volume.history == old(volume.history)
      ensures r.Ok? ==>
                && r.value == Version(StreamOf(Authored(store.log, excluded)).Encode(), io.stamp)
                && volume.file == Some(r.value) && volume.survivors == {Some(r.value)}
                && volume.history == old(volume.history) + {r.value} && StampsTell(volume.history)
    {
      var head := Read(store.log, excluded);
      HeadBundleReadsBack(Authored(store.log, excluded));
      if Parse(head.stream.Encode()).Err? {
        return Err(InvalidState);
      }
      if io.fault == RenameFails {
        return Err(Unavailable);
      }
      var version := Version(head.stream.Encode(), io.stamp);
      assert StampsTell(volume.history + {version});
      volume.Replace(version);
      if io.fault == SyncFails {
        return Err(Unavailable);
      }
      volume.SyncBundleDirectory();
      return Ok(version);
    }

    /** `export --repair-pending`, with every other writer stopped: the head is exported, proved
        and written durably, and only then are the markers cleared. */
    method RepairPending(store: EventStore, io: PublishIo, resists: set<nat>, ghost rest: State)
      returns (r: Result<(), PortError>, ghost step: Option<Step>)
      requires id < |rest.procs| && volume.lock == None
      requires forall q :: q in rest.procs ==> q.phase.Idle?
      requires (forall v :: v in volume.history ==> v.stamp != io.stamp) && StampsTell(volume.history)
      modifies volume`file, volume`survivors, volume`history, volume`markers, volume`durable
      ensures r.Ok? ==> volume.markers == {} && Provable(Authored(store.log, excluded))
                        && volume.file == Some(Version(StreamOf(Authored(store.log, excluded)).Encode(), io.stamp))
      ensures step.None? ==> r.Err? && View(rest, store, Idle) == old(View(rest, store, Idle))
      ensures step.Some? && step.value.RepairStops? ==> r.Err? && volume.markers == old(volume.markers)
      ensures step.Some? ==> Apply(old(View(rest, store, Idle)), step.value) == Some(View(rest, store, Idle))
    {
      ghost var before := View(rest, store, Idle);
      var exported;
      exported, step := ExportForRepair(store, io, rest);
      if exported.Err? {
        return Err(exported.error), step;
      }
      r, step := ClearExported(store, exported.value, resists, before, rest);
    }

    /** The export of a repair: the head in place and durable, or nothing done, or the head renamed
        into place and not known to be durable. */
    method ExportForRepair(store: EventStore, io: PublishIo, ghost rest: State)
      returns (exported: Result<Version, PortError>, ghost step: Option<Step>)
      requires id < |rest.procs| && volume.lock == None
      requires forall q :: q in rest.procs ==> q.phase.Idle?
      requires (forall v :: v in volume.history ==> v.stamp != io.stamp) && StampsTell(volume.history)
      modifies volume`file, volume`survivors, volume`history
      ensures exported.Ok? ==> exported.value == Version(StreamOf(Authored(store.log, excluded)).Encode(), io.stamp)
      ensures exported.Ok? ==> Repairs(old(View(rest, store, Idle)), exported.value)
      ensures exported.Ok? ==>
                View(rest, store, Idle)
                == Written(old(View(rest, store, Idle)), Some(exported.value)).(survivors := {Some(exported.value)})
      ensures exported.Err? && step.None? ==> View(rest, store, Idle) == old(View(rest, store, Idle))
      ensures exported.Err? && step.Some? ==>
                step.value.RepairStops? && Apply(old(View(rest, store, Idle)), step.value) == Some(View(rest, store, Idle))
    {
      ghost var before := View(rest, store, Idle);
      forall q | q in before.procs
        ensures q.phase.Idle?
      {
      }
      exported := ExportHead(store, io);
      ghost var version := Version(StreamOf(Authored(store.log, excluded)).Encode(), io.stamp);
      step := if exported.Err? && Provable(Authored(store.log, excluded)) && io.fault == SyncFails then Some(RepairStops(version)) else None;
    }

    /** Nothing is cleared before the export is durable. */
    method ClearExported(store: EventStore, version: Version, resists: set<nat>, ghost before: State, ghost rest: State)
      returns (r: Result<(), PortError>, ghost step: Option<Step>)
      requires id < |rest.procs| && Repairs(before, version)
      requires View(rest, store, Idle) == Written(before, Some(version)).(survivors := {Some(version)})
      modifies volume`markers, volume`durable
      ensures r.Ok? ==> volume.markers == {}
      ensures step.Some? && step.value.Repair? && Apply(before, step.value) == Some(View(rest, store, Idle))
    {
      ghost var removed;
      r, removed := ClearPending(volume, resists);
      step := Some(Repair(version, removed, volume.durable));
      RepairApplies(before, version, removed, volume.durable);
    }
  }

  /** How the tool call under the guard ended. */
  datatype WriteOutcome = Committed | Rejected | Ambiguous

  /** `clear_pending_bundle_exports`: every marker, until one resists; each removal is synced. */
  method ClearPending(volume: Volume, resists: set<nat>) returns (r: Result<(), PortError>, ghost removed: set<nat>)
    modifies volume`markers, volume`durable
    ensures removed <= old(volume.markers) && removed !! resists
    ensures volume.markers == old(volume.markers) - removed
    ensures volume.durable == if removed == {} then old(volume.durable) else volume.markers
    ensures r.Ok? ==> volume.markers == {}
    ensures r.Err? ==> volume.markers * resists != {}
  {
    removed := {};
    var pending := volume.markers;
    while pending != {}
      invariant pending == volume.markers == old(volume.markers) - removed
      invariant removed <= old(volume.markers) && removed !! resists
      invariant volume.durable == if removed == {} then old(volume.durable) else volume.markers
      decreases pending
    {
      var marker :| marker in pending;
      if marker in resists {
        assert marker in volume.markers * resists;
        return Err(Unavailable), removed;
      }
      volume.markers := volume.markers - {marker};
      volume.SyncMarkerDirectory();
      removed := removed + {marker};
      pending := pending - {marker};
    }
    return Ok(()), removed;
  }
}
