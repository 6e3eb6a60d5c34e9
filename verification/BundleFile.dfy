/** Writing a bundle file as filesystem steps: replaced atomically, or published once. */
module BundleFile {
  import opened Prelude

  type Bundle = seq<nat>

  /** A path callers write to, and the names a call makes for itself. */
  datatype Name = Canonical(path: nat) | Temp(call: nat) | Previous(call: nat) | Staged(call: nat)

  /** What is on the disk under one inode: the first `written` bytes of what its creator was given. */
  datatype Inode = Inode(bundle: Bundle, written: nat, synced: bool)

  type Dir = map<Name, nat>

  /** Who writes where: over whatever is there, or only where nothing is. */
  datatype Target = Over(path: nat) | IfAbsent(path: nat)

  datatype Phase =
    | Begin
    | Writing(ino: nat)
    | Sealed(ino: nat)
    | Aside(ino: nat, had: bool)
    | Replaced
    | Ready
    | Linked(won: bool)
    | Unstaged(won: bool)
    | Failing
    | Returned(result: Option<bool>)
    | Dead

  datatype Call = Call(target: Target, bundle: Bundle, phase: Phase)

  /** `older` holds the directories a loss of power may bring back, the durable one first. */
  datatype State = State(windows: bool, dir: Dir, older: seq<Dir>, inodes: seq<Inode>, calls: seq<Call>)

  datatype Step =
    | Create(call: nat)
    | Write(call: nat, bytes: nat)
    | Sync(call: nat)
    | SetAside(call: nat)
    | Rename(call: nat)
    | RenameFails(call: nat, restored: bool)
    | DropPrevious(call: nat)
    | Link(call: nat)
    | LinkFails(call: nat, removed: bool)
    | Unstage(call: nat)
    | SyncParent(call: nat)
    | Fail(call: nat)
    | CleanUp(call: nat, removed: bool)
    | Die(call: nat)
    | PowerLoss(back: nat, torn: seq<nat>)

  /** Where a call's own replacement goes: the path itself, or its staged name. */
  function Destination(s: State, call: nat): Name
    requires call < |s.calls|
  {
    match s.calls[call].target
    case Over(path) => Canonical(path)
    case IfAbsent(_) => Staged(call)
  }

  predicate Complete(inode: Inode) {
    inode.written == |inode.bundle| && inode.synced
  }

  function At(s: State, call: nat, phase: Phase): State
    requires call < |s.calls|
  {
    s.(calls := s.calls[call := s.calls[call].(phase := phase)])
  }

  /** A change of the directory, not yet durable. */
  function Moved(s: State, dir: Dir): State {
    s.(dir := dir, older := s.older + [s.dir])
  }

  /** `sync_parent`: makes the directory durable on Unix, does nothing on Windows. */
  function SyncedDir(s: State): State {
    if s.windows then s else s.(older := [])
  }

  function Next(s: State, step: Step): Option<State> {
    match step
    case Create(c) => NextCreate(s, c)
    case Write(c, n) => NextWrite(s, c, n)
    case Sync(c) => NextSync(s, c)
    case SetAside(c) => NextSetAside(s, c)
    case Rename(c) => NextRename(s, c)
    case RenameFails(c, restored) => NextRenameFails(s, c, restored)
    case DropPrevious(c) => NextDropPrevious(s, c)
    case Link(c) => NextLink(s, c)
    case LinkFails(c, removed) => NextLinkFails(s, c, removed)
    case Unstage(c) => NextUnstage(s, c)
    case SyncParent(c) => NextSyncParent(s, c)
    case Fail(c) => NextFail(s, c)
    case CleanUp(c, removed) => NextCleanUp(s, c, removed)
    case Die(c) => if c < |s.calls| then Some(At(s, c, Dead)) else None
    case PowerLoss(back, torn) => NextPowerLoss(s, back, torn)
  }

  /** `create_new`: a fresh inode under the call's own temporary name. */
  function NextCreate(s: State, c: nat): Option<State> {
    if !(c < |s.calls|) || !s.calls[c].phase.Begin? || Temp(c) in s.dir then None
    else
      var made := s.(inodes := s.inodes + [Inode(s.calls[c].bundle, 0, false)]);
      Some(At(Moved(made, s.dir[Temp(c) := |s.inodes|]), c, Writing(|s.inodes|)))
  }

  /** Some more bytes reach the file; `write_all` may stop anywhere. */
  function NextWrite(s: State, c: nat, n: nat): Option<State> {
    if !(c < |s.calls|) || !s.calls[c].phase.Writing? || !(s.calls[c].phase.ino < |s.inodes|) then None
    else
      var ino := s.calls[c].phase.ino;
      var inode := s.inodes[ino];
      if inode.written + n > |inode.bundle| then None
      else Some(s.(inodes := s.inodes[ino := inode.(written := inode.written + n)]))
  }

  function NextSync(s: State, c: nat): Option<State> {
    if !(c < |s.calls|) || !s.calls[c].phase.Writing? || !(s.calls[c].phase.ino < |s.inodes|) then None
    else
      var ino := s.calls[c].phase.ino;
      if s.inodes[ino].written != |s.inodes[ino].bundle| then None
      else Some(At(s.(inodes := s.inodes[ino := s.inodes[ino].(synced := true)]), c, Sealed(ino)))
  }

  /** Windows keeps the previous file beside the path before the new one takes its name. */
  function NextSetAside(s: State, c: nat): Option<State> {
    if !s.windows || !(c < |s.calls|) || !s.calls[c].phase.Sealed? then None
    else
      var ino, name := s.calls[c].phase.ino, Destination(s, c);
      if name in s.dir then Some(At(Moved(s, (s.dir - {name})[Previous(c) := s.dir[name]]), c, Aside(ino, true)))
      else Some(At(s, c, Aside(ino, false)))
  }

  function NextRename(s: State, c: nat): Option<State> {
    if !(c < |s.calls|) || Temp(c) !in s.dir
       || !(if s.windows then s.calls[c].phase.Aside? else s.calls[c].phase.Sealed?)
    then None
    else Some(At(Moved(s, (s.dir - {Temp(c)})[Destination(s, c) := s.calls[c].phase.ino]), c, Replaced))
  }

  /** The rename fails; what was set aside is put back, or even that fails. */
  function NextRenameFails(s: State, c: nat, restored: bool): Option<State> {
    if !s.windows || !(c < |s.calls|) || !s.calls[c].phase.Aside? then None
    else if restored && Previous(c) in s.dir then
      Some(At(Moved(s, (s.dir - {Previous(c)})[Destination(s, c) := s.dir[Previous(c)]]), c, Failing))
    else Some(At(s, c, Failing))
  }

  function NextDropPrevious(s: State, c: nat): Option<State> {
    if !s.windows || !(c < |s.calls|) || !s.calls[c].phase.Replaced? then None
    else Some(Moved(s, s.dir - {Previous(c)}))
  }

  /** `hard_link`: the path gets the staged file exactly when it has none. */
  function NextLink(s: State, c: nat): Option<State> {
    if !(c < |s.calls|) || !s.calls[c].phase.Ready? || !s.calls[c].target.IfAbsent? || Staged(c) !in s.dir then None
    else
      var name := Canonical(s.calls[c].target.path);
      if name in s.dir then Some(At(s, c, Linked(false)))
      else Some(At(Moved(s, s.dir[name := s.dir[Staged(c)]]), c, Linked(true)))
  }

  /** Any other answer from `hard_link`: the staged file is removed, and nothing was published. */
  function NextLinkFails(s: State, c: nat, removed: bool): Option<State> {
    if !(c < |s.calls|) || !s.calls[c].phase.Ready? || !s.calls[c].target.IfAbsent? then None
    else Some(At(if removed then Moved(s, s.dir - {Staged(c)}) else s, c, Returned(None)))
  }

  function NextUnstage(s: State, c: nat): Option<State> {
    if !(c < |s.calls|) || !s.calls[c].phase.Linked? then None
    else Some(At(Moved(s, s.dir - {Staged(c)}), c, Unstaged(s.calls[c].phase.won)))
  }

  /** The last step of either write, and of the publication. */
  function NextSyncParent(s: State, c: nat): Option<State> {
    if !(c < |s.calls|) then None
    else
      match s.calls[c].phase
      case Replaced => Some(At(SyncedDir(s), c, if s.calls[c].target.Over? then Returned(Some(true)) else Ready))
      case Unstaged(won) => Some(At(SyncedDir(s), c, Returned(Some(won))))
      case _ => None
  }

  /** Any step of a call may report an error; a step that was taken stays taken. */
  function NextFail(s: State, c: nat): Option<State> {
    if !(c < |s.calls|) || s.calls[c].phase.Returned? || s.calls[c].phase.Dead? || s.calls[c].phase.Aside? then None
    else Some(At(s, c, Failing))
  }

  /** A failed write removes its temporary file, or fails to, and reports the failure. */
  function NextCleanUp(s: State, c: nat, removed: bool): Option<State> {
    if !(c < |s.calls|) || !s.calls[c].phase.Failing? then None
    else Some(At(if removed then Moved(s, s.dir - {Temp(c)}) else s, c, Returned(None)))
  }

  /** The machine loses power: a directory not yet superseded durably may come back, and files not
      synced may hold anything of what was written. */
  function NextPowerLoss(s: State, back: nat, torn: seq<nat>): Option<State> {
    var dirs := s.older + [s.dir];
    if !(back < |dirs|) || |torn| != |s.inodes| then None
    else Some(State(s.windows, dirs[back], [],
                    seq(|s.inodes|, i requires 0 <= i < |s.inodes| => Torn(s.inodes[i], torn[i])),
                    seq(|s.calls|, i requires 0 <= i < |s.calls| => Stopped(s.calls[i]))))
  }

  /** A call that returned has returned; any other is gone. */
  function Stopped(call: Call): Call {
    if call.phase.Returned? then call else call.(phase := Dead)
  }

  function Torn(inode: Inode, kept: nat): Inode {
    if inode.synced then inode else inode.(written := if kept <= inode.written then kept else inode.written)
  }

  function Run(s: State, steps: seq<Step>): Option<State> {
    if steps == [] then Some(s)
    else
      var before := Run(s, steps[..|steps| - 1]);
      if before.None? then None else Next(before.value, steps[|steps| - 1])
  }

  // ---- only whole bundles are ever visible ----

  /** A name other readers may open. */
  predicate Visible(name: Name) { !name.Temp? }

  predicate WholeAt(dir: Dir, inodes: seq<Inode>) {
    forall name :: name in dir ==> dir[name] < |inodes| && (Visible(name) ==> Complete(inodes[dir[name]]))
  }

  predicate AllWhole(dirs: seq<Dir>, inodes: seq<Inode>) {
    forall i :: 0 <= i < |dirs| ==> WholeAt(dirs[i], inodes)
  }

  /** Every inode holds what some call was given, or one of the bundles there at the start. */
  ghost predicate Given(inodes: seq<Inode>, calls: seq<Call>, initial: set<Bundle>) {
    forall i :: 0 <= i < |inodes| ==>
      inodes[i].bundle in initial || exists c :: 0 <= c < |calls| && calls[c].bundle == inodes[i].bundle
  }

  /** A call writes to an inode only it can reach and nobody has seen; what it sealed is its own. */
  predicate Placed(s: State, c: nat)
    requires c < |s.calls|
  {
    match s.calls[c].phase
    case Writing(ino) => ino < |s.inodes| && !s.inodes[ino].synced && s.inodes[ino].bundle == s.calls[c].bundle
    case Sealed(ino) => ino < |s.inodes| && Complete(s.inodes[ino]) && s.inodes[ino].bundle == s.calls[c].bundle
    case Aside(ino, _) => ino < |s.inodes| && Complete(s.inodes[ino]) && s.inodes[ino].bundle == s.calls[c].bundle
    case _ => true
  }

  /** Two calls never write to one inode. */
  predicate Apart(s: State) {
    forall c, d :: 0 <= c < d < |s.calls| && s.calls[c].phase.Writing? && s.calls[d].phase.Writing? ==>
      s.calls[c].phase.ino != s.calls[d].phase.ino
  }

  ghost predicate Sound(s: State, initial: set<Bundle>) {
    && WholeAt(s.dir, s.inodes) && AllWhole(s.older, s.inodes) && Given(s.inodes, s.calls, initial)
    && (forall c :: 0 <= c < |s.calls| ==> Placed(s, c)) && Apart(s)
  }

  /** Files are only ever completed, never changed, once complete. */
  predicate Keeps(inodes: seq<Inode>, more: seq<Inode>) {
    && |inodes| <= |more|
    && forall i :: 0 <= i < |inodes| ==>
         more[i].bundle == inodes[i].bundle && (Complete(inodes[i]) ==> more[i] == inodes[i])
  }

  lemma WholeKeeps(dir: Dir, inodes: seq<Inode>, more: seq<Inode>)
    requires WholeAt(dir, inodes) && Keeps(inodes, more)
    ensures WholeAt(dir, more)
  {
  }

  lemma AllWholeKeeps(dirs: seq<Dir>, inodes: seq<Inode>, more: seq<Inode>)
    requires AllWhole(dirs, inodes) && Keeps(inodes, more)
    ensures AllWhole(dirs, more)
  {
    forall i | 0 <= i < |dirs|
      ensures WholeAt(dirs[i], more)
    {
      WholeKeeps(dirs[i], inodes, more);
    }
  }

  predicate SameGiven(calls: seq<Call>, more: seq<Call>) {
    |more| == |calls| && forall c :: 0 <= c < |calls| ==> more[c].bundle == calls[c].bundle && more[c].target == calls[c].target
  }

  lemma GivenKeeps(inodes: seq<Inode>, more: seq<Inode>, calls: seq<Call>, calls': seq<Call>, initial: set<Bundle>)
    requires Given(inodes, calls, initial) && SameGiven(calls, calls') && |more| == |inodes|
    requires forall i :: 0 <= i < |inodes| ==> more[i].bundle == inodes[i].bundle
    ensures Given(more, calls', initial)
  {
    forall i | 0 <= i < |more| && more[i].bundle !in initial
      ensures exists c :: 0 <= c < |calls'| && calls'[c].bundle == more[i].bundle
    {
      var c :| 0 <= c < |calls| && calls[c].bundle == inodes[i].bundle;
      assert calls'[c].bundle == more[i].bundle;
    }
  }

  /** A step that changes no file and only moves one call along, to a phase that writes nothing. */
  lemma MovesKeep(s: State, s': State, c: nat, phase: Phase, initial: set<Bundle>)
    requires Sound(s, initial) && c < |s.calls| && !phase.Writing?
    requires s'.inodes == s.inodes && s'.calls == s.calls[c := s.calls[c].(phase := phase)]
    requires WholeAt(s'.dir, s.inodes) && AllWhole(s'.older, s.inodes) && Placed(s', c)
    ensures Sound(s', initial)
  {
    GivenKeeps(s.inodes, s'.inodes, s.calls, s'.calls, initial);
    forall d | 0 <= d < |s'.calls|
      ensures Placed(s', d)
    {
      if d != c { assert Placed(s, d); }
    }
  }

  lemma MovedWhole(s: State, dir: Dir, initial: set<Bundle>)
    requires Sound(s, initial)
    ensures AllWhole(s.older + [s.dir], s.inodes)
  {
  }

  lemma CreateKeeps(s: State, c: nat, s': State, initial: set<Bundle>)
    requires Sound(s, initial) && NextCreate(s, c) == Some(s')
    ensures Sound(s', initial)
  {
    assert Keeps(s.inodes, s'.inodes);
    WholeKeeps(s.dir, s.inodes, s'.inodes);
    AllWholeKeeps(s.older, s.inodes, s'.inodes);
    GivenKeeps(s.inodes, s'.inodes[..|s.inodes|], s.calls, s'.calls, initial);
    forall i | 0 <= i < |s'.inodes| && s'.inodes[i].bundle !in initial
      ensures exists d :: 0 <= d < |s'.calls| && s'.calls[d].bundle == s'.inodes[i].bundle
    {
      if i == |s.inodes| {
        assert s'.calls[c].bundle == s'.inodes[i].bundle;
      } else {
        assert s'.inodes[..|s.inodes|][i] == s'.inodes[i];
      }
    }
    forall d | 0 <= d < |s'.calls|
      ensures Placed(s', d)
      ensures d != c && s'.calls[d].phase.Writing? ==> s'.calls[d].phase.ino < |s.inodes|
    {
      if d != c { assert Placed(s, d); }
    }
  }

  lemma FileKeeps(s: State, c: nat, inode: Inode, phase: Phase, s': State, initial: set<Bundle>)
    requires Sound(s, initial) && c < |s.calls| && s.calls[c].phase.Writing? && s.calls[c].phase.ino < |s.inodes|
    requires var ino := s.calls[c].phase.ino;
             && inode.bundle == s.inodes[ino].bundle && s'.inodes == s.inodes[ino := inode]
             && ((phase == Writing(ino) && !inode.synced) || (phase == Sealed(ino) && Complete(inode)))
    requires s'.dir == s.dir && s'.older == s.older && s'.calls == s.calls[c := s.calls[c].(phase := phase)]
    ensures Sound(s', initial)
  {
    assert Placed(s, c);
    assert Keeps(s.inodes, s'.inodes);
    WholeKeeps(s.dir, s.inodes, s'.inodes);
    AllWholeKeeps(s.older, s.inodes, s'.inodes);
    GivenKeeps(s.inodes, s'.inodes, s.calls, s'.calls, initial);
    forall d | 0 <= d < |s'.calls|
      ensures Placed(s', d)
    {
      if d != c { assert Placed(s, d); }
    }
  }

  lemma PowerLossKeeps(s: State, back: nat, torn: seq<nat>, s': State, initial: set<Bundle>)
    requires Sound(s, initial) && NextPowerLoss(s, back, torn) == Some(s')
    ensures Sound(s', initial)
  {
    var dirs := s.older + [s.dir];
    MovedWhole(s, s.dir, initial);
    assert Keeps(s.inodes, s'.inodes);
    WholeKeeps(dirs[back], s.inodes, s'.inodes);
    GivenKeeps(s.inodes, s'.inodes, s.calls, s'.calls, initial);
  }

  lemma SetAsideKeeps(s: State, c: nat, s': State, initial: set<Bundle>)
    requires Sound(s, initial) && NextSetAside(s, c) == Some(s')
    ensures Sound(s', initial)
  {
    MovedWhole(s, s.dir, initial);
    assert Placed(s, c);
    MovesKeep(s, s', c, s'.calls[c].phase, initial);
  }

  lemma RenameKeeps(s: State, c: nat, s': State, initial: set<Bundle>)
    requires Sound(s, initial) && NextRename(s, c) == Some(s')
    ensures Sound(s', initial)
  {
    MovedWhole(s, s.dir, initial);
    assert Placed(s, c);
    MovesKeep(s, s', c, Replaced, initial);
  }

  lemma RenameFailsKeeps(s: State, c: nat, restored: bool, s': State, initial: set<Bundle>)
    requires Sound(s, initial) && NextRenameFails(s, c, restored) == Some(s')
    ensures Sound(s', initial)
  {
    MovedWhole(s, s.dir, initial);
    assert Placed(s, c);
    MovesKeep(s, s', c, Failing, initial);
  }

  lemma DropPreviousKeeps(s: State, c: nat, s': State, initial: set<Bundle>)
    requires Sound(s, initial) && NextDropPrevious(s, c) == Some(s')
    ensures Sound(s', initial)
  {
    MovedWhole(s, s.dir, initial);
    assert Placed(s, c);
    MovesKeep(s, s', c, Replaced, initial);
  }

  lemma LinkKeeps(s: State, c: nat, s': State, initial: set<Bundle>)
    requires Sound(s, initial) && NextLink(s, c) == Some(s')
    ensures Sound(s', initial)
  {
    MovedWhole(s, s.dir, initial);
    assert Placed(s, c);
    MovesKeep(s, s', c, s'.calls[c].phase, initial);
  }

  lemma LinkFailsKeeps(s: State, c: nat, removed: bool, s': State, initial: set<Bundle>)
    requires Sound(s, initial) && NextLinkFails(s, c, removed) == Some(s')
    ensures Sound(s', initial)
  {
    MovedWhole(s, s.dir, initial);
    assert Placed(s, c);
    MovesKeep(s, s', c, Returned(None), initial);
  }

  lemma UnstageKeeps(s: State, c: nat, s': State, initial: set<Bundle>)
    requires Sound(s, initial) && NextUnstage(s, c) == Some(s')
    ensures Sound(s', initial)
  {
    MovedWhole(s, s.dir, initial);
    assert Placed(s, c);
    MovesKeep(s, s', c, s'.calls[c].phase, initial);
  }

  lemma SyncParentKeeps(s: State, c: nat, s': State, initial: set<Bundle>)
    requires Sound(s, initial) && NextSyncParent(s, c) == Some(s')
    ensures Sound(s', initial)
  {
    MovedWhole(s, s.dir, initial);
    assert Placed(s, c);
    MovesKeep(s, s', c, s'.calls[c].phase, initial);
  }

  lemma CleanUpKeeps(s: State, c: nat, removed: bool, s': State, initial: set<Bundle>)
    requires Sound(s, initial) && NextCleanUp(s, c, removed) == Some(s')
    ensures Sound(s', initial)
  {
    MovedWhole(s, s.dir, initial);
    assert Placed(s, c);
    MovesKeep(s, s', c, Returned(None), initial);
  }

  lemma WriteKeeps(s: State, c: nat, n: nat, s': State, initial: set<Bundle>)
    requires Sound(s, initial) && NextWrite(s, c, n) == Some(s')
    ensures Sound(s', initial)
  {
    assert Placed(s, c);
    assert s'.calls == s.calls[c := s.calls[c].(phase := s.calls[c].phase)];
    FileKeeps(s, c, s'.inodes[s.calls[c].phase.ino], s.calls[c].phase, s', initial);
  }

  /** Every step keeps what is visible whole. */
  lemma StepKeeps(s: State, step: Step, s': State, initial: set<Bundle>)
    requires Sound(s, initial) && Next(s, step) == Some(s')
    ensures Sound(s', initial)
  {
    match step
    case Create(c) => CreateKeeps(s, c, s', initial);
    case Write(c, n) => WriteKeeps(s, c, n, s', initial);
    case Sync(c) => FileKeeps(s, c, s'.inodes[s.calls[c].phase.ino], Sealed(s.calls[c].phase.ino), s', initial);
    case SetAside(c) => SetAsideKeeps(s, c, s', initial);
    case Rename(c) => RenameKeeps(s, c, s', initial);
    case RenameFails(c, restored) => RenameFailsKeeps(s, c, restored, s', initial);
    case DropPrevious(c) => DropPreviousKeeps(s, c, s', initial);
    case Link(c) => LinkKeeps(s, c, s', initial);
    case LinkFails(c, removed) => LinkFailsKeeps(s, c, removed, s', initial);
    case Unstage(c) => UnstageKeeps(s, c, s', initial);
    case SyncParent(c) => SyncParentKeeps(s, c, s', initial);
    case Fail(c) => MovesKeep(s, s', c, Failing, initial);
    case CleanUp(c, removed) => CleanUpKeeps(s, c, removed, s', initial);
    case Die(c) => MovesKeep(s, s', c, Dead, initial);
    case PowerLoss(back, torn) => PowerLossKeeps(s, back, torn, s', initial);
  }

  lemma {:induction false} RunKeeps(s: State, steps: seq<Step>, s': State, initial: set<Bundle>)
    requires Sound(s, initial) && Run(s, steps) == Some(s')
    ensures Sound(s', initial)
    decreases |steps|
  {
    if steps == [] {
    } else {
      var before := Run(s, steps[..|steps| - 1]).value;
      RunKeeps(s, steps[..|steps| - 1], before, initial);
      StepKeeps(before, steps[|steps| - 1], s', initial);
    }
  }

  /** The bytes a reader finds under a name. */
  function BytesAt(s: State, name: Name): Option<Bundle> {
    if name in s.dir && s.dir[name] < |s.inodes| && s.inodes[s.dir[name]].written <= |s.inodes[s.dir[name]].bundle| then
      Some(s.inodes[s.dir[name]].bundle[..s.inodes[s.dir[name]].written])
    else None
  }

  /** Whatever runs beside whatever, wherever anything stops or power fails: what a reader finds at a
      path is a whole bundle, one that was there before or that some call was given. */
  lemma VisibleIsWhole(s: State, steps: seq<Step>, s': State, initial: set<Bundle>, name: Name)
    requires Sound(s, initial) && Run(s, steps) == Some(s') && Visible(name) && name in s'.dir
    ensures var found := BytesAt(s', name);
            found.Some? && (found.value in initial || exists c :: 0 <= c < |s'.calls| && s'.calls[c].bundle == found.value)
  {
    RunKeeps(s, steps, s', initial);
    var inode := s'.inodes[s'.dir[name]];
    assert inode.bundle[..inode.written] == inode.bundle;
  }

  // ---- one replacement: the old bundle or the new ----

  /** The bundle of the file under a name; in a sound state it is all there. */
  function BundleAt(dir: Dir, inodes: seq<Inode>, name: Name): Option<Bundle> {
    if name in dir && dir[name] < |inodes| then Some(inodes[dir[name]].bundle) else None
  }

  function CallOf(step: Step): Option<nat> {
    match step
    case Create(c) => Some(c)
    case Write(c, _) => Some(c)
    case Sync(c) => Some(c)
    case SetAside(c) => Some(c)
    case Rename(c) => Some(c)
    case RenameFails(c, _) => Some(c)
    case DropPrevious(c) => Some(c)
    case Link(c) => Some(c)
    case LinkFails(c, _) => Some(c)
    case Unstage(c) => Some(c)
    case SyncParent(c) => Some(c)
    case Fail(c) => Some(c)
    case CleanUp(c, _) => Some(c)
    case Die(c) => Some(c)
    case PowerLoss(_, _) => None
  }

  predicate SameAt(dir: Dir, dir': Dir, name: Name) {
    (name in dir <==> name in dir') && (name in dir ==> dir'[name] == dir[name])
  }

  /** The names a call can touch: its own, and the path it writes. */
  predicate Touches(target: Target, c: nat, name: Name) {
    name == Temp(c) || name == Previous(c) || name == Staged(c) || name == Canonical(target.path)
  }

  /** A step leaves every other call, and every name its call does not own, as they were. */
  lemma Untouched(s: State, step: Step, s': State, c: nat, name: Name)
    requires Next(s, step) == Some(s') && CallOf(step) == Some(c) && c < |s.calls| && !Touches(s.calls[c].target, c, name)
    ensures SameAt(s.dir, s'.dir, name)
  {
  }

  lemma OthersStay(s: State, step: Step, s': State, c: nat)
    requires Next(s, step) == Some(s') && CallOf(step) == Some(c)
    ensures c < |s.calls| && SameGiven(s.calls, s'.calls) && s'.windows == s.windows
    ensures forall d :: 0 <= d < |s.calls| && d != c ==> s'.calls[d] == s.calls[d]
    ensures s'.older == s.older || s'.older == s.older + [s.dir] || s'.older == []
    ensures |s.inodes| <= |s'.inodes| && forall i :: 0 <= i < |s.inodes| ==> s'.inodes[i].bundle == s.inodes[i].bundle
  {
  }

  lemma BundleStays(dir: Dir, dir': Dir, inodes: seq<Inode>, more: seq<Inode>, name: Name)
    requires WholeAt(dir, inodes) && SameAt(dir, dir', name)
    requires |inodes| <= |more| && forall i :: 0 <= i < |inodes| ==> more[i].bundle == inodes[i].bundle
    ensures BundleAt(dir', more, name) == BundleAt(dir, inodes, name)
  {
  }

  /** No other call writes this path. */
  predicate Alone(s: State, path: nat, c: nat) {
    c < |s.calls| && s.calls[c].target == Over(path) && forall d :: 0 <= d < |s.calls| && d != c ==> s.calls[d].target.path != path
  }

  /** The path holds the old bundle or the new; on Windows, while it holds neither, the old one is
      beside it under the set-aside name. */
  predicate Either(dir: Dir, inodes: seq<Inode>, windows: bool, path: nat, c: nat, old_: Option<Bundle>, new_: Bundle) {
    var found := BundleAt(dir, inodes, Canonical(path));
    found == old_ || found == Some(new_) || (windows && found == None && BundleAt(dir, inodes, Previous(c)) == old_)
  }

  predicate AllEither(dirs: seq<Dir>, inodes: seq<Inode>, windows: bool, path: nat, c: nat, old_: Option<Bundle>, new_: Bundle) {
    forall i :: 0 <= i < |dirs| ==> Either(dirs[i], inodes, windows, path, c, old_, new_)
  }

  /** How far the replacement has come, and what the path holds then. */
  predicate Along(s: State, path: nat, c: nat, old_: Option<Bundle>)
    requires c < |s.calls|
  {
    var found, kept := BundleAt(s.dir, s.inodes, Canonical(path)), BundleAt(s.dir, s.inodes, Previous(c));
    match s.calls[c].phase
    case Begin => found == old_ && Previous(c) !in s.dir
    case Writing(_) => found == old_ && Previous(c) !in s.dir
    case Sealed(_) => found == old_ && Previous(c) !in s.dir
    case Aside(_, had) => if had then found == None && kept == old_ else found == None == old_ && Previous(c) !in s.dir
    case Replaced => found == Some(s.calls[c].bundle)
    case _ => Either(s.dir, s.inodes, s.windows, path, c, old_, s.calls[c].bundle)
  }

  ghost predicate Replacing(s: State, path: nat, c: nat, old_: Option<Bundle>, initial: set<Bundle>) {
    && Sound(s, initial) && Alone(s, path, c) && Along(s, path, c, old_)
    && AllEither(s.older, s.inodes, s.windows, path, c, old_, s.calls[c].bundle)
  }

  lemma AlongIsEither(s: State, path: nat, c: nat, old_: Option<Bundle>)
    requires c < |s.calls| && Along(s, path, c, old_) && (s.calls[c].phase.Aside? ==> s.windows)
    ensures Either(s.dir, s.inodes, s.windows, path, c, old_, s.calls[c].bundle)
  {
  }

  lemma EitherStays(dirs: seq<Dir>, inodes: seq<Inode>, more: seq<Inode>, windows: bool, path: nat, c: nat, old_: Option<Bundle>, new_: Bundle)
    requires AllWhole(dirs, inodes) && AllEither(dirs, inodes, windows, path, c, old_, new_)
    requires |inodes| <= |more| && forall i :: 0 <= i < |inodes| ==> more[i].bundle == inodes[i].bundle
    ensures AllEither(dirs, more, windows, path, c, old_, new_)
  {
    forall i | 0 <= i < |dirs|
      ensures Either(dirs[i], more, windows, path, c, old_, new_)
    {
      BundleStays(dirs[i], dirs[i], inodes, more, Canonical(path));
      BundleStays(dirs[i], dirs[i], inodes, more, Previous(c));
    }
  }

  /** Only Windows sets a file aside. */
  predicate AsideOnWindows(s: State) {
    forall c :: 0 <= c < |s.calls| && s.calls[c].phase.Aside? ==> s.windows
  }

  lemma AsideStays(s: State, step: Step, s': State)
    requires AsideOnWindows(s) && Next(s, step) == Some(s')
    ensures AsideOnWindows(s')
  {
    if step.PowerLoss? {
      forall c | 0 <= c < |s'.calls|
        ensures !s'.calls[c].phase.Aside?
      {
      }
    } else {
      OthersStay(s, step, s', CallOf(step).value);
    }
  }

  /** The steps that put the new bundle, or the old one back, in place. */
  lemma OwnMove(s: State, step: Step, s': State, path: nat, c: nat, old_: Option<Bundle>, initial: set<Bundle>)
    requires Replacing(s, path, c, old_, initial) && AsideOnWindows(s)
    requires Next(s, step) == Some(s') && CallOf(step) == Some(c)
    requires step.SetAside? || step.Rename? || step.RenameFails? || step.DropPrevious?
    ensures Along(s', path, c, old_)
  {
    assert Placed(s, c);
    assert WholeAt(s.dir, s.inodes);
  }

  lemma OwnStep(s: State, step: Step, s': State, path: nat, c: nat, old_: Option<Bundle>, initial: set<Bundle>)
    requires Replacing(s, path, c, old_, initial) && AsideOnWindows(s)
    requires Next(s, step) == Some(s') && CallOf(step) == Some(c)
    ensures Along(s', path, c, old_)
  {
    assert WholeAt(s.dir, s.inodes);
    if step.SetAside? || step.Rename? || step.RenameFails? || step.DropPrevious? {
      OwnMove(s, step, s', path, c, old_, initial);
    }
  }

  lemma OtherStep(s: State, step: Step, s': State, path: nat, c: nat, old_: Option<Bundle>, initial: set<Bundle>, d: nat)
    requires Replacing(s, path, c, old_, initial) && Next(s, step) == Some(s') && CallOf(step) == Some(d) && d != c
    ensures Along(s', path, c, old_)
  {
    OthersStay(s, step, s', d);
    Untouched(s, step, s', d, Canonical(path));
    Untouched(s, step, s', d, Previous(c));
    BundleStays(s.dir, s'.dir, s.inodes, s'.inodes, Canonical(path));
    BundleStays(s.dir, s'.dir, s.inodes, s'.inodes, Previous(c));
  }

  lemma LossKeeps(s: State, back: nat, torn: seq<nat>, s': State, path: nat, c: nat, old_: Option<Bundle>, initial: set<Bundle>)
    requires Replacing(s, path, c, old_, initial) && AsideOnWindows(s) && NextPowerLoss(s, back, torn) == Some(s')
    ensures Alone(s', path, c) && Along(s', path, c, old_)
  {
    var dirs := s.older + [s.dir];
    AlongIsEither(s, path, c, old_);
    MovedWhole(s, s.dir, initial);
    assert AllEither(dirs, s.inodes, s.windows, path, c, old_, s.calls[c].bundle);
    EitherStays(dirs, s.inodes, s'.inodes, s.windows, path, c, old_, s.calls[c].bundle);
    assert Either(dirs[back], s'.inodes, s.windows, path, c, old_, s.calls[c].bundle);
  }

  lemma ReplacingStep(s: State, step: Step, s': State, path: nat, c: nat, old_: Option<Bundle>, initial: set<Bundle>)
    requires Replacing(s, path, c, old_, initial) && AsideOnWindows(s) && Next(s, step) == Some(s')
    ensures Replacing(s', path, c, old_, initial) && AsideOnWindows(s')
  {
    StepKeeps(s, step, s', initial);
    AsideStays(s, step, s');
    if step.PowerLoss? {
      LossKeeps(s, step.back, step.torn, s', path, c, old_, initial);
    } else {
      var d := CallOf(step).value;
      OthersStay(s, step, s', d);
      if d == c { OwnStep(s, step, s', path, c, old_, initial); } else { OtherStep(s, step, s', path, c, old_, initial, d); }
      AlongIsEither(s, path, c, old_);
      MovedWhole(s, s.dir, initial);
      EitherStays(s.older + [s.dir], s.inodes, s'.inodes, s.windows, path, c, old_, s.calls[c].bundle);
    }
  }

  lemma {:induction false} ReplacingRun(s: State, steps: seq<Step>, s': State, path: nat, c: nat, old_: Option<Bundle>, initial: set<Bundle>)
    requires Replacing(s, path, c, old_, initial) && AsideOnWindows(s) && Run(s, steps) == Some(s')
    ensures Replacing(s', path, c, old_, initial) && AsideOnWindows(s')
    decreases |steps|
  {
    if steps == [] {
    } else {
      var before := Run(s, steps[..|steps| - 1]).value;
      ReplacingRun(s, steps[..|steps| - 1], before, path, c, old_, initial);
      ReplacingStep(before, steps[|steps| - 1], s', path, c, old_, initial);
    }
  }

  /** A call about to begin, alone at its path, with nothing of its own on the disk. */
  ghost predicate Fresh(s: State, path: nat, c: nat, initial: set<Bundle>) {
    && Sound(s, initial) && Alone(s, path, c) && s.calls[c].phase.Begin? && Previous(c) !in s.dir && s.older == []
    && AsideOnWindows(s)
  }

  /** At every point of a replacement, after any failure, crash or loss of power, the path holds the
      whole old bundle or the whole new one; on Windows, where it may for a moment hold neither, the
      whole old one is under the set-aside name. */
  lemma OldOrNew(s: State, steps: seq<Step>, s': State, path: nat, c: nat, initial: set<Bundle>)
    requires Fresh(s, path, c, initial) && Run(s, steps) == Some(s')
    ensures Sound(s', initial) && c < |s'.calls|
    ensures Either(s'.dir, s'.inodes, s'.windows, path, c, BundleAt(s.dir, s.inodes, Canonical(path)), s'.calls[c].bundle)
  {
    var old_ := BundleAt(s.dir, s.inodes, Canonical(path));
    ReplacingRun(s, steps, s', path, c, old_, initial);
    AlongIsEither(s', path, c, old_);
  }

  // ---- publishing once ----

  /** Only `write_bundle_if_absent` is used for this path. */
  predicate OnceOnly(s: State, path: nat) {
    forall c :: 0 <= c < |s.calls| && s.calls[c].target.path == path ==> s.calls[c].target.IfAbsent?
  }

  /** The call published this path, or has said so. */
  predicate Won(call: Call, path: nat) {
    && call.target == IfAbsent(path)
    && (call.phase == Linked(true) || call.phase == Unstaged(true) || call.phase == Returned(Some(true)))
  }

  predicate Staging(call: Call) {
    call.target.IfAbsent? && (call.phase.Replaced? || call.phase.Ready?)
  }

  ghost predicate Once(s: State, path: nat) {
    && OnceOnly(s, path)
    && (forall c :: 0 <= c < |s.calls| && Staging(s.calls[c]) ==> BundleAt(s.dir, s.inodes, Staged(c)) == Some(s.calls[c].bundle))
    && (forall c :: 0 <= c < |s.calls| && Won(s.calls[c], path) ==>
          BundleAt(s.dir, s.inodes, Canonical(path)) == Some(s.calls[c].bundle))
    && (forall c, d :: 0 <= c < |s.calls| && 0 <= d < |s.calls| && Won(s.calls[c], path) && Won(s.calls[d], path) ==> c == d)
    && (!s.windows ==> forall c :: 0 <= c < |s.calls| && s.calls[c].target == IfAbsent(path) && s.calls[c].phase == Returned(Some(true)) ==>
          Durable(s.older, s.inodes, path, s.calls[c].bundle))
  }

  predicate Durable(older: seq<Dir>, inodes: seq<Inode>, path: nat, bundle: Bundle) {
    forall i :: 0 <= i < |older| ==> BundleAt(older[i], inodes, Canonical(path)) == Some(bundle)
  }

  /** Once the path is there, no step of any call changes what it holds. */
  lemma FixedOnce(s: State, step: Step, s': State, path: nat, initial: set<Bundle>)
    requires Sound(s, initial) && OnceOnly(s, path) && Next(s, step) == Some(s') && CallOf(step).Some?
    requires Canonical(path) in s.dir
    ensures SameAt(s.dir, s'.dir, Canonical(path))
    ensures BundleAt(s'.dir, s'.inodes, Canonical(path)) == BundleAt(s.dir, s.inodes, Canonical(path))
  {
    var c := CallOf(step).value;
    OthersStay(s, step, s', c);
    if s.calls[c].target.path != path { Untouched(s, step, s', c, Canonical(path)); }
    BundleStays(s.dir, s'.dir, s.inodes, s'.inodes, Canonical(path));
  }

  lemma WonStays(s: State, step: Step, s': State, path: nat, initial: set<Bundle>, c: nat)
    requires Sound(s, initial) && Once(s, path) && Next(s, step) == Some(s') && CallOf(step).Some?
    requires c < |s'.calls| && Won(s'.calls[c], path)
    ensures BundleAt(s'.dir, s'.inodes, Canonical(path)) == Some(s'.calls[c].bundle)
    ensures c < |s.calls| && (Won(s.calls[c], path) || (step == Link(c) && Canonical(path) !in s.dir))
  {
    var d := CallOf(step).value;
    OthersStay(s, step, s', d);
    if Won(s.calls[c], path) {
      FixedOnce(s, step, s', path, initial);
    } else {
      assert step == Link(c) && Staging(s.calls[c]);
    }
  }

  lemma StagingStays(s: State, step: Step, s': State, path: nat, initial: set<Bundle>, c: nat)
    requires Sound(s, initial) && Once(s, path) && Next(s, step) == Some(s') && CallOf(step).Some?
    requires c < |s'.calls| && Staging(s'.calls[c])
    ensures BundleAt(s'.dir, s'.inodes, Staged(c)) == Some(s'.calls[c].bundle)
  {
    var d := CallOf(step).value;
    OthersStay(s, step, s', d);
    if d != c {
      Untouched(s, step, s', d, Staged(c));
      BundleStays(s.dir, s'.dir, s.inodes, s'.inodes, Staged(c));
    } else {
      assert Placed(s, c);
    }
  }

  lemma DurableStays(s: State, step: Step, s': State, path: nat, initial: set<Bundle>, c: nat)
    requires Sound(s, initial) && Once(s, path) && Next(s, step) == Some(s') && CallOf(step).Some? && !s.windows
    requires c < |s'.calls| && s'.calls[c].target == IfAbsent(path) && s'.calls[c].phase == Returned(Some(true))
    ensures Durable(s'.older, s'.inodes, path, s'.calls[c].bundle)
  {
    var d := CallOf(step).value;
    OthersStay(s, step, s', d);
    if s'.older != [] {
      assert Won(s.calls[c], path) && s.calls[c].phase == Returned(Some(true));
      forall i | 0 <= i < |s'.older|
        ensures BundleAt(s'.older[i], s'.inodes, Canonical(path)) == Some(s'.calls[c].bundle)
      {
        if i < |s.older| {
          assert WholeAt(s.older[i], s.inodes);
          BundleStays(s.older[i], s.older[i], s.inodes, s'.inodes, Canonical(path));
        } else {
          BundleStays(s.dir, s.dir, s.inodes, s'.inodes, Canonical(path));
        }
      }
    }
  }

  lemma OnceStep(s: State, step: Step, s': State, path: nat, initial: set<Bundle>)
    requires Sound(s, initial) && Once(s, path) && Next(s, step) == Some(s') && CallOf(step).Some?
    ensures Once(s', path)
  {
    OthersStay(s, step, s', CallOf(step).value);
    forall c | 0 <= c < |s'.calls| && Won(s'.calls[c], path)
      ensures BundleAt(s'.dir, s'.inodes, Canonical(path)) == Some(s'.calls[c].bundle)
      ensures Won(s.calls[c], path) || (step == Link(c) && Canonical(path) !in s.dir)
    {
      WonStays(s, step, s', path, initial, c);
    }
    forall c | 0 <= c < |s'.calls| && Staging(s'.calls[c])
      ensures BundleAt(s'.dir, s'.inodes, Staged(c)) == Some(s'.calls[c].bundle)
    {
      StagingStays(s, step, s', path, initial, c);
    }
    if !s.windows {
      forall c | 0 <= c < |s'.calls| && s'.calls[c].target == IfAbsent(path) && s'.calls[c].phase == Returned(Some(true))
        ensures Durable(s'.older, s'.inodes, path, s'.calls[c].bundle)
      {
        DurableStays(s, step, s', path, initial, c);
      }
    }
  }

  /** Power is lost on Unix: a path said to be published is published still. */
  lemma OnceLoss(s: State, back: nat, torn: seq<nat>, s': State, path: nat, initial: set<Bundle>)
    requires Sound(s, initial) && Once(s, path) && NextPowerLoss(s, back, torn) == Some(s') && !s.windows
    ensures Once(s', path)
  {
    forall c | 0 <= c < |s'.calls|
      ensures !Staging(s'.calls[c])
      ensures Won(s'.calls[c], path) ==> s.calls[c].phase == Returned(Some(true)) && s'.calls[c] == s.calls[c]
      ensures Won(s'.calls[c], path) ==> BundleAt(s'.dir, s'.inodes, Canonical(path)) == Some(s'.calls[c].bundle)
    {
      if Won(s'.calls[c], path) && back < |s.older| {
        assert Durable(s.older, s.inodes, path, s.calls[c].bundle);
      }
    }
  }

  lemma {:induction false} OnceRun(s: State, steps: seq<Step>, s': State, path: nat, initial: set<Bundle>)
    requires Sound(s, initial) && Once(s, path) && Run(s, steps) == Some(s')
    requires s.windows ==> forall i :: 0 <= i < |steps| ==> CallOf(steps[i]).Some?
    ensures Sound(s', initial) && Once(s', path) && s'.windows == s.windows
    decreases |steps|
  {
    if steps == [] {
    } else {
      var init, last := steps[..|steps| - 1], steps[|steps| - 1];
      var before := Run(s, init).value;
      OnceRun(s, init, before, path, initial);
      StepKeeps(before, last, s', initial);
      if last.PowerLoss? {
        OnceLoss(before, last.back, last.torn, s', path, initial);
      } else {
        OnceStep(before, last, s', path, initial);
        OthersStay(before, last, s', CallOf(last).value);
      }
    }
  }

  /** Of all the calls that ever publish to a path where nothing else writes, at most one answers
      true, and the path holds its bundle ever after: across any crashes, and on Unix across any loss
      of power. */
  lemma AtMostOneWins(s: State, steps: seq<Step>, s': State, path: nat, initial: set<Bundle>, c: nat)
    requires Sound(s, initial) && Once(s, path) && Run(s, steps) == Some(s')
    requires s.windows ==> forall i :: 0 <= i < |steps| ==> CallOf(steps[i]).Some?
    requires c < |s'.calls| && Won(s'.calls[c], path)
    ensures BundleAt(s'.dir, s'.inodes, Canonical(path)) == Some(s'.calls[c].bundle)
    ensures forall d :: 0 <= d < |s'.calls| && Won(s'.calls[d], path) ==> d == c
  {
    OnceRun(s, steps, s', path, initial);
  }

  // ---- the calls, in the order they act ----

  lemma RunSnoc(s: State, steps: seq<Step>, step: Step)
    ensures Run(s, steps + [step]) == (if Run(s, steps).None? then None else Next(Run(s, steps).value, step))
  {
    assert (steps + [step])[..|steps + [step]| - 1] == steps;
  }

  /** A call not begun, with none of its own names on the disk. */
  predicate Ours(s: State, c: nat) {
    c < |s.calls| && s.calls[c].phase.Begin? && Temp(c) !in s.dir && Previous(c) !in s.dir && Staged(c) !in s.dir
  }

  lemma WrittenWhole(s: State, name: Name)
    requires name in s.dir && s.dir[name] < |s.inodes| && s.inodes[s.dir[name]].written == |s.inodes[s.dir[name]].bundle|
    ensures BytesAt(s, name) == Some(s.inodes[s.dir[name]].bundle)
  {
    var inode := s.inodes[s.dir[name]];
    assert inode.bundle[..inode.written] == inode.bundle;
  }

  class Disk {
    var s: State
    ghost var steps: seq<Step>
    ghost var began: State

    constructor (s: State)
      ensures this.s == s && began == s && steps == [] && Valid()
    {
      this.s, began, steps := s, s, [];
    }

    /** What happened is a run. */
    ghost predicate Valid()
      reads this
    {
      Run(began, steps) == Some(s)
    }

    method Perform(step: Step)
      requires Valid() && Next(s, step).Some?
      modifies this
      ensures Valid() && began == old(began) && Some(s) == Next(old(s), step)
    {
      RunSnoc(began, steps, step);
      s, steps := Next(s, step).value, steps + [step];
    }

    /** The failure path: the temporary file goes, the error is returned. */
    method GiveUp(c: nat)
      requires Valid() && c < |s.calls|
      requires !s.calls[c].phase.Returned? && !s.calls[c].phase.Dead? && !s.calls[c].phase.Aside?
      modifies this
      ensures Valid() && began == old(began) && c < |s.calls| && s.calls[c].phase == Returned(None)
      ensures s.windows == old(s).windows && s.inodes == old(s).inodes
      ensures s.calls[c].bundle == old(s).calls[c].bundle && s.calls[c].target == old(s).calls[c].target
    {
      Perform(Fail(c));
      Perform(CleanUp(c, true));
    }

    /** Create, write and sync the temporary file. */
    method Prepare(c: nat, fails: nat -> bool) returns (ok: bool)
      requires Valid() && Ours(s, c)
      modifies this
      ensures Valid() && began == old(began) && c < |s.calls| && s.windows == old(s).windows
      ensures s.calls[c].bundle == old(s).calls[c].bundle && s.calls[c].target == old(s).calls[c].target
      ensures ok ==> s.calls[c].phase.Sealed? && Temp(c) in s.dir && s.calls[c].phase.ino < |s.inodes|
                     && s.inodes[s.calls[c].phase.ino] == Inode(s.calls[c].bundle, |s.calls[c].bundle|, true)
      ensures !ok ==> s.calls[c].phase == Returned(None)
    {
      if fails(0) {
        GiveUp(c);
        return false;
      }
      Perform(Create(c));
      if fails(1) {
        GiveUp(c);
        return false;
      }
      Perform(Write(c, |s.calls[c].bundle|));
      if fails(2) {
        GiveUp(c);
        return false;
      }
      Perform(Sync(c));
      return true;
    }

    /** Windows: what is there steps aside, and comes back if the rename fails. */
    method ReplaceOnWindows(c: nat, fails: bool) returns (ok: bool)
      requires Valid() && s.windows && c < |s.calls| && s.calls[c].phase.Sealed? && Temp(c) in s.dir
      modifies this
      ensures Valid() && began == old(began) && c < |s.calls| && s.windows == old(s).windows && s.inodes == old(s).inodes
      ensures s.calls[c].bundle == old(s).calls[c].bundle && s.calls[c].target == old(s).calls[c].target
      ensures ok ==> s.calls[c].phase.Replaced? && Destination(s, c) in s.dir
                     && s.dir[Destination(s, c)] == old(s).calls[c].phase.ino
      ensures !ok ==> s.calls[c].phase == Returned(None)
    {
      Perform(SetAside(c));
      if fails {
        Perform(RenameFails(c, true));
        Perform(CleanUp(c, true));
        return false;
      }
      Perform(Rename(c));
      Perform(DropPrevious(c));
      return true;
    }

    /** `replace_file`, as the platform has it. */
    method ReplaceFile(c: nat, fails: bool) returns (ok: bool)
      requires Valid() && c < |s.calls| && s.calls[c].phase.Sealed? && Temp(c) in s.dir
      modifies this
      ensures Valid() && began == old(began) && c < |s.calls| && s.windows == old(s).windows && s.inodes == old(s).inodes
      ensures s.calls[c].bundle == old(s).calls[c].bundle && s.calls[c].target == old(s).calls[c].target
      ensures ok ==> s.calls[c].phase.Replaced? && Destination(s, c) in s.dir
                     && s.dir[Destination(s, c)] == old(s).calls[c].phase.ino
      ensures !ok ==> s.calls[c].phase == Returned(None)
    {
      if s.windows {
        ok := ReplaceOnWindows(c, fails);
      } else if fails {
        GiveUp(c);
        ok := false;
      } else {
        Perform(Rename(c));
        ok := true;
      }
    }

    /** `write_bundle_atomically`. */
    method WriteBundleAtomically(c: nat, fails: nat -> bool) returns (ok: bool)
      requires Valid() && Ours(s, c)
      modifies this
      ensures Valid() && began == old(began) && c < |s.calls|
      ensures s.calls[c].bundle == old(s).calls[c].bundle && s.calls[c].target == old(s).calls[c].target
      ensures ok ==> BytesAt(s, Destination(s, c)) == Some(s.calls[c].bundle)
      ensures ok ==> s.calls[c].phase == if s.calls[c].target.Over? then Returned(Some(true)) else Ready
      ensures !ok ==> s.calls[c].phase == Returned(None)
    {
      ok := Prepare(c, fails);
      if !ok {
        return;
      }
      ok := ReplaceFile(c, fails(3));
      if !ok {
        return;
      }
      if fails(4) {
        GiveUp(c);
        return false;
      }
      assert BytesAt(s, Destination(s, c)) == Some(s.calls[c].bundle) by {
        WrittenWhole(s, Destination(s, c));
      }
      Perform(SyncParent(c));
    }

    /** The staged file is linked to the path, if that has none, and its staged name removed. */
    method PublishStaged(c: nat, fails: nat -> bool) returns (r: Option<bool>)
      requires Valid() && c < |s.calls| && s.calls[c].phase.Ready? && s.calls[c].target.IfAbsent?
      requires BytesAt(s, Staged(c)) == Some(s.calls[c].bundle)
      modifies this
      ensures Valid() && began == old(began) && c < |s.calls| && s.calls[c].phase == Returned(r)
      ensures r == Some(true) ==> BytesAt(s, Canonical(old(s).calls[c].target.path)) == Some(old(s).calls[c].bundle)
      ensures r == Some(false) ==> Canonical(old(s).calls[c].target.path) in s.dir
    {
      if fails(5) {
        Perform(LinkFails(c, true));
        return None;
      }
      Perform(Link(c));
      r := FinishPublishing(c, fails);
    }

    /** After the link: the staged name goes, the directory is made durable. */
    method FinishPublishing(c: nat, fails: nat -> bool) returns (r: Option<bool>)
      requires Valid() && c < |s.calls| && s.calls[c].phase.Linked?
      modifies this
      ensures Valid() && began == old(began) && c < |s.calls| && s.calls[c].phase == Returned(r)
      ensures r.Some? ==> r == Some(old(s).calls[c].phase.won) && s.inodes == old(s).inodes
      ensures r.Some? ==> s.dir == old(s).dir - {Staged(c)}
    {
      if fails(6) {
        GiveUp(c);
        return None;
      }
      Perform(Unstage(c));
      if fails(7) {
        GiveUp(c);
        return None;
      }
      var won := s.calls[c].phase.won;
      Perform(SyncParent(c));
      return Some(won);
    }

    /** `write_bundle_if_absent`: written under its own name, then published once. */
    method WriteBundleIfAbsent(c: nat, fails: nat -> bool) returns (r: Option<bool>)
      requires Valid() && Ours(s, c) && s.calls[c].target.IfAbsent?
      modifies this
      ensures Valid() && began == old(began) && c < |s.calls| && s.calls[c].phase == Returned(r)
      ensures r == Some(true) ==> BytesAt(s, Canonical(old(s).calls[c].target.path)) == Some(old(s).calls[c].bundle)
      ensures r == Some(false) ==> Canonical(old(s).calls[c].target.path) in s.dir
    {
      var ok := WriteBundleAtomically(c, fails);
      if !ok {
        return None;
      }
      r := PublishStaged(c, fails);
    }
  }
}
