/**
 * The optimistic append over JetStream: any number of clients, requests that arrive late or
 * never, acks that are lost, crashes; linearizable to an atomic append-if-revision.
 */
module NatsAppend {
  import opened Prelude
  import opened JetStream

  /** What a client sends: an event under a compare, or an idempotency record under none. */
  datatype Request =
    | Publish(client: nat, expected: nat, lastSequence: nat, event: ContextEvent)
    | Record(key: string, outcome: IdempotentOutcome)

  datatype Client =
    | Idle
    | Called(event: ContextEvent, expected: nat, since: nat)
    | Ready(event: ContextEvent, expected: nat, since: nat, lastSequence: nat)
    | Waiting(event: ContextEvent, expected: nat, since: nat, request: nat)
    | Recording(event: ContextEvent, expected: nat, since: nat)
    | Returned(event: ContextEvent, expected: nat, since: nat, result: Result<nat, PortError>)

  /** One moment at which an append took effect, or found another revision than it expected. */
  datatype Moment = Moment(client: nat, subject: string, expected: nat, outcome: Result<nat, PortError>)

  /** `verdicts`: what the server answered to a publish, as the moment it answered at. */
  datatype State = State(
    prefix: string, stream: Stream, flight: map<nat, Request>, verdicts: map<nat, nat>, next: nat,
    clients: seq<Client>, moments: seq<Moment>)

  datatype Step =
    | Call(c: nat, event: ContextEvent, expected: nat)
    | ReadLast(c: nat)
    | Send(c: nat)
    | Deliver(request: nat)
    | Lose(request: nat)
    | Ack(c: nat)
    | AckRecord(c: nat)
    | GiveUp(c: nat)
    | Crash(c: nat)

  /** The revision an append reads: the last stored event's own, or zero. */
  function ReadRevision(stream: Stream, subject: string): nat {
    var n := LastSequence(stream, subject);
    if n > 0 && stream[n - 1].payload.Stored? then stream[n - 1].payload.event.revision else 0
  }

  function OutcomeFor(event: ContextEvent, revision: nat): IdempotentOutcome {
    IdempotentOutcome(revision, event.contentHash, event.logicalDigest)
  }

  function Set(s: State, c: nat, client: Client): State
    requires c < |s.clients|
  {
    s.(clients := s.clients[c := client])
  }

  function ClientStep(s: State, step: Step): Option<State>
    requires !step.Deliver? && !step.Lose?
  {
    if step.c >= |s.clients| then None
    else
      var client := s.clients[step.c];
      match step
      case Call(c, event, expected) =>
        if (client.Idle? || client.Returned?) && event.revision == expected + 1 then
          Some(Set(s, c, Called(event, expected, |s.moments|)))
        else None
      case ReadLast(c) =>
        if !client.Called? then None
        else
          var subject := SubjectOf(s.prefix, client.event);
          if ReadRevision(s.stream, subject) != client.expected then
            Some(Set(s.(moments := s.moments + [Moment(c, subject, client.expected, Err(Conflict))]), c,
                     Returned(client.event, client.expected, client.since, Err(Conflict))))
          else
            Some(Set(s, c, Ready(client.event, client.expected, client.since, LastSequence(s.stream, subject))))
      case Send(c) =>
        if !client.Ready? then None
        else
          Some(Set(s.(flight := s.flight[s.next := Publish(c, client.expected, client.lastSequence, client.event)],
                      next := s.next + 1),
                   c, Waiting(client.event, client.expected, client.since, s.next)))
      case Ack(c) =>
        if !(client.Waiting? && client.request in s.verdicts && s.verdicts[client.request] < |s.moments|) then None
        else if s.moments[s.verdicts[client.request]].outcome.Err? then
          Some(Set(s, c, Returned(client.event, client.expected, client.since, Err(Conflict))))
        else if client.event.idempotencyKey.None? then
          Some(Set(s, c, Returned(client.event, client.expected, client.since, Ok(client.expected + 1))))
        else
          var record := Record(client.event.idempotencyKey.value, OutcomeFor(client.event, client.expected + 1));
          Some(Set(s.(flight := s.flight[s.next := record], next := s.next + 1), c,
                   Recording(client.event, client.expected, client.since)))
      case AckRecord(c) =>
        if client.Recording? then
          Some(Set(s, c, Returned(client.event, client.expected, client.since, Ok(client.expected + 1))))
        else None
      case GiveUp(c) =>
        if client.Called? || client.Ready? || client.Waiting? then
          Some(Set(s, c, Returned(client.event, client.expected, client.since, Err(Unavailable))))
        else None
      case Crash(c) => Some(Set(s, c, Idle))
  }

  /** The server takes a request: an event only if its subject has not moved, a record always. */
  function ServerStep(s: State, step: Step): Option<State>
    requires step.Deliver? || step.Lose?
  {
    if step.request !in s.flight then None
    else
      var request := s.flight[step.request];
      var s' := s.(flight := s.flight - {step.request});
      if step.Lose? then Some(s')
      else
        match request
        case Record(key, outcome) =>
          Some(s'.(stream := s.stream + [Message(IdemSubject(s.prefix, key), Recorded(outcome))]))
        case Publish(client, expected, lastSequence, event) =>
          var subject := SubjectOf(s.prefix, event);
          var accepted := LastSequence(s.stream, subject) == lastSequence;
          var outcome := if accepted then Ok(expected + 1) else Err(Conflict);
          Some(s'.(stream := if accepted then s.stream + [Message(subject, Stored(event))] else s.stream,
                   verdicts := s.verdicts[step.request := |s.moments|],
                   moments := s.moments + [Moment(client, subject, expected, outcome)]))
  }

  function Apply(s: State, step: Step): Option<State> {
    if step.Deliver? || step.Lose? then ServerStep(s, step) else ClientStep(s, step)
  }

  function Run(s: State, steps: seq<Step>): Option<State>
    decreases |steps|
  {
    if steps == [] then Some(s)
    else
      match Apply(s, steps[0])
      case None => None
      case Some(next) => Run(next, steps[1..])
  }

  predicate Initial(s: State) {
    && s.stream == [] && s.flight == map[] && s.verdicts == map[] && s.moments == []
    && forall client :: client in s.clients ==> client.Idle?
  }

  // ---- the atomic object ----

  /** One counter a subject: append if the current revision equals the expected one. */
  type Counters = map<string, nat>

  function Current(counters: Counters, subject: string): nat {
    if subject in counters then counters[subject] else 0
  }

  function AtomicAppend(counters: Counters, subject: string, expected: nat): (Counters, Result<nat, PortError>) {
    if Current(counters, subject) == expected then (counters[subject := expected + 1], Ok(expected + 1))
    else (counters, Err(Conflict))
  }

  /** The moments, one after the other, are calls of the atomic object with their own answers. */
  function Replay(moments: seq<Moment>): Option<Counters> {
    if moments == [] then Some(map[])
    else
      match Replay(moments[..|moments| - 1])
      case None => None
      case Some(counters) =>
        var m := moments[|moments| - 1];
        var (after, outcome) := AtomicAppend(counters, m.subject, m.expected);
        if outcome == m.outcome then Some(after) else None
  }

  /** The object stands where the stream stands. */
  ghost predicate Matches(counters: Counters, stream: Stream, prefix: string) {
    forall root, role ::
      Current(counters, EventSubject(prefix, root, role)) == |EventsOn(stream, EventSubject(prefix, root, role))|
  }

  // ---- the invariant ----

  /** Stored revisions are 1, 2, 3, ... */
  ghost predicate Counted(s: State) {
    forall root, role, i ::
      var events := EventsOn(s.stream, EventSubject(s.prefix, root, role));
      0 <= i < |events| ==> events[i].revision == i + 1
  }

  /** A sequence read when the subject stood at the expected revision. */
  predicate SeenAt(s: State, event: ContextEvent, expected: nat, lastSequence: nat) {
    var subject := SubjectOf(s.prefix, event);
    && event.revision == expected + 1
    && lastSequence <= LastSequence(s.stream, subject)
    && |EventsOn(s.stream[..lastSequence], subject)| == expected
    && (lastSequence > 0 ==> s.stream[lastSequence - 1].subject == subject)
  }

  /** An idempotency record points at an event stored under that key at that revision. */
  predicate Justified(stream: Stream, key: string, outcome: IdempotentOutcome) {
    exists i :: 0 <= i < |stream| && stream[i].payload.Stored?
      && stream[i].payload.event.idempotencyKey == Some(key)
      && OutcomeFor(stream[i].payload.event, stream[i].payload.event.revision) == outcome
  }

  predicate RequestOk(s: State, request: Request) {
    match request
    case Publish(client, expected, lastSequence, event) => SeenAt(s, event, expected, lastSequence)
    case Record(key, outcome) => Justified(s.stream, key, outcome)
  }

  ghost predicate RecordsOk(s: State) {
    forall i, key :: 0 <= i < |s.stream| && s.stream[i].payload.Recorded?
      && s.stream[i].subject == IdemSubject(s.prefix, key)
      ==> Justified(s.stream[..i], key, s.stream[i].payload.outcome)
  }

  /** The moment a call is decided at lies inside the call. */
  predicate DecidedAt(s: State, c: nat, client: Client, i: nat)
    requires !client.Idle?
  {
    && client.since <= i < |s.moments| && client.event.revision == client.expected + 1
    && s.moments[i].client == c && s.moments[i].subject == SubjectOf(s.prefix, client.event)
    && s.moments[i].expected == client.expected
    && s.moments[i].outcome in {Ok(client.expected + 1), Err(Conflict)}
    && (s.moments[i].outcome.Ok? ==> StoredIn(s.stream, s.prefix, client.event))
  }

  predicate StoredIn(stream: Stream, prefix: string, event: ContextEvent) {
    Message(SubjectOf(prefix, event), Stored(event)) in stream
  }

  predicate Asks(request: Request, client: nat, expected: nat, event: ContextEvent) {
    request.Publish? && request.client == client && request.expected == expected && request.event == event
  }

  predicate ClientOk(s: State, c: nat, client: Client) {
    match client
    case Idle => true
    case Called(event, expected, since) => since <= |s.moments| && event.revision == expected + 1
    case Ready(event, expected, since, lastSequence) =>
      since <= |s.moments| && SeenAt(s, event, expected, lastSequence)
    case Waiting(event, expected, since, request) =>
      && since <= |s.moments| && event.revision == expected + 1
      && request < s.next
      && (request in s.flight ==> Asks(s.flight[request], c, expected, event))
      && (request in s.verdicts ==> DecidedAt(s, c, client, s.verdicts[request]))
    case Recording(event, expected, since) =>
      exists i :: 0 <= i < |s.moments| && DecidedAt(s, c, client, i) && s.moments[i].outcome == Ok(expected + 1)
    case Returned(event, expected, since, result) =>
      || result == Err(Unavailable)
      || exists i :: 0 <= i < |s.moments| && DecidedAt(s, c, client, i) && s.moments[i].outcome == result
  }

  ghost predicate Inv(s: State) {
    && Typed(s.prefix, s.stream) && Counted(s) && RecordsOk(s)
    && (forall id :: id in s.flight ==> id < s.next && id !in s.verdicts && RequestOk(s, s.flight[id]))
    && (forall id :: id in s.verdicts ==> id < s.next)
    && (forall c :: 0 <= c < |s.clients| ==> ClientOk(s, c, s.clients[c]))
    && Replay(s.moments).Some? && Matches(Replay(s.moments).value, s.stream, s.prefix)
  }

  // ---- what growth keeps ----

  predicate Onward(s: State, s': State) {
    && s'.prefix == s.prefix && s.stream <= s'.stream && s.moments <= s'.moments
  }

  lemma SeenAtKeeps(s: State, s': State, event: ContextEvent, expected: nat, lastSequence: nat)
    requires Onward(s, s') && SeenAt(s, event, expected, lastSequence)
    ensures SeenAt(s', event, expected, lastSequence)
  {
    var more := s'.stream[|s.stream|..];
    assert s'.stream == s.stream + more;
    EventsOnGrow(s.stream, more, SubjectOf(s.prefix, event));
    assert s'.stream[..lastSequence] == s.stream[..lastSequence];
  }

  lemma JustifiedKeeps(stream: Stream, stream': Stream, key: string, outcome: IdempotentOutcome)
    requires stream <= stream' && Justified(stream, key, outcome)
    ensures Justified(stream', key, outcome)
  {
    var i :| 0 <= i < |stream| && stream[i].payload.Stored?
      && stream[i].payload.event.idempotencyKey == Some(key)
      && OutcomeFor(stream[i].payload.event, stream[i].payload.event.revision) == outcome;
    assert stream'[i] == stream[i];
  }

  lemma DecidedKeeps(s: State, s': State, c: nat, client: Client, i: nat)
    requires Onward(s, s') && !client.Idle? && DecidedAt(s, c, client, i)
    ensures DecidedAt(s', c, client, i) && s'.moments[i] == s.moments[i]
  {
    assert s'.moments[i] == s.moments[i];
    if s.moments[i].outcome.Ok? {
      var at :| 0 <= at < |s.stream| && s.stream[at] == Message(SubjectOf(s.prefix, client.event), Stored(client.event));
      assert s'.stream[at] == s.stream[at];
    }
  }

  /** A client that did not move keeps what it knows, while nobody answers its request. */
  lemma ClientKeeps(s: State, s': State, c: nat, client: Client)
    requires Onward(s, s') && ClientOk(s, c, client) && s.next <= s'.next
    requires client.Waiting? && client.request in s'.flight ==>
               client.request in s.flight && s'.flight[client.request] == s.flight[client.request]
    requires client.Waiting? && client.request in s'.verdicts ==>
               client.request in s.verdicts && s'.verdicts[client.request] == s.verdicts[client.request]
    ensures ClientOk(s', c, client)
  {
    match client
    case Ready(event, expected, since, lastSequence) => SeenAtKeeps(s, s', event, expected, lastSequence);
    case Waiting(event, expected, since, request) =>
      if request in s'.verdicts { DecidedKeeps(s, s', c, client, s.verdicts[request]); }
    case Recording(event, expected, since) =>
      var i :| 0 <= i < |s.moments| && DecidedAt(s, c, client, i) && s.moments[i].outcome == Ok(expected + 1);
      DecidedKeeps(s, s', c, client, i);
    case Returned(event, expected, since, result) =>
      if result != Err(Unavailable) {
        var i :| 0 <= i < |s.moments| && DecidedAt(s, c, client, i) && s.moments[i].outcome == result;
        DecidedKeeps(s, s', c, client, i);
      }
    case _ =>
  }

  lemma RequestKeeps(s: State, s': State, request: Request)
    requires Onward(s, s') && RequestOk(s, request)
    ensures RequestOk(s', request)
  {
    match request
    case Publish(client, expected, lastSequence, event) => SeenAtKeeps(s, s', event, expected, lastSequence);
    case Record(key, outcome) => JustifiedKeeps(s.stream, s'.stream, key, outcome);
  }

  // ---- moments ----

  /** The atomic object answers the next call: the replay goes on. */
  lemma ReplaySnoc(moments: seq<Moment>, m: Moment)
    requires Replay(moments).Some?
    requires AtomicAppend(Replay(moments).value, m.subject, m.expected).1 == m.outcome
    ensures Replay(moments + [m]) == Some(AtomicAppend(Replay(moments).value, m.subject, m.expected).0)
  {
    assert (moments + [m])[..|moments|] == moments;
  }

  /** The revision the code reads is the number of stored events. */
  lemma ReadsTheCount(s: State, event: ContextEvent)
    requires Typed(s.prefix, s.stream) && Counted(s)
    ensures ReadRevision(s.stream, SubjectOf(s.prefix, event)) == |EventsOn(s.stream, SubjectOf(s.prefix, event))|
  {
    LastEvent(s.prefix, s.stream, event.root, event.role);
  }

  /** A conflict at a read is a conflict of the atomic object at that moment. */
  lemma ReadMoment(s: State, event: ContextEvent, expected: nat)
    requires Inv(s) && ReadRevision(s.stream, SubjectOf(s.prefix, event)) != expected
    ensures AtomicAppend(Replay(s.moments).value, SubjectOf(s.prefix, event), expected)
         == (Replay(s.moments).value, Err(Conflict))
  {
    ReadsTheCount(s, event);
  }

  /** A compare that passes finds the expected revision; one that fails finds another. */
  lemma DeliverMoment(s: State, event: ContextEvent, expected: nat, lastSequence: nat)
    requires Typed(s.prefix, s.stream) && SeenAt(s, event, expected, lastSequence)
    ensures LastSequence(s.stream, SubjectOf(s.prefix, event)) == lastSequence
            <==> |EventsOn(s.stream, SubjectOf(s.prefix, event))| == expected
  {
    var subject := SubjectOf(s.prefix, event);
    if LastSequence(s.stream, subject) == lastSequence {
      EventsUpToLast(s.stream, subject, lastSequence);
    } else {
      MovedMeansMore(s.prefix, s.stream, event.root, event.role, lastSequence);
    }
  }

  // ---- the steps ----

  /** A client's step that stores nothing and decides nothing. */
  lemma QuietKeeps(s: State, s': State, c: nat)
    requires Inv(s) && c < |s.clients| == |s'.clients|
    requires s' == Set(s, c, s'.clients[c])
    requires ClientOk(s, c, s'.clients[c])
    ensures Inv(s')
  {
    forall d | 0 <= d < |s'.clients|
      ensures ClientOk(s', d, s'.clients[d])
    {
      if d != c { ClientKeeps(s, s', d, s.clients[d]); }
    }
  }

  lemma ReadLastKeeps(s: State, c: nat, s': State)
    requires Inv(s) && ClientStep(s, ReadLast(c)) == Some(s')
    ensures Inv(s')
  {
    var client := s.clients[c];
    var event, expected := client.event, client.expected;
    var subject := SubjectOf(s.prefix, event);
    if ReadRevision(s.stream, subject) != expected {
      ReadMoment(s, event, expected);
      ReplaySnoc(s.moments, s'.moments[|s.moments|]);
      MomentKeeps(s, s', c);
    } else {
      ReadsTheCount(s, event);
      var n := LastSequence(s.stream, subject);
      EventsUpToLast(s.stream, subject, n);
      QuietKeeps(s, s', c);
    }
  }

  /** A client records a moment and returns at it. */
  lemma MomentKeeps(s: State, s': State, c: nat)
    requires Inv(s) && c < |s.clients| == |s'.clients| && s.clients[c].Called?
    requires |s'.moments| == |s.moments| + 1 && s' == Set(s.(moments := s'.moments), c, s'.clients[c])
    requires s.moments <= s'.moments && Replay(s'.moments) == Replay(s.moments)
    requires var client := s.clients[c];
             && s'.moments[|s.moments|] == Moment(c, SubjectOf(s.prefix, client.event), client.expected, Err(Conflict))
             && s'.clients[c] == Returned(client.event, client.expected, client.since, Err(Conflict))
    ensures Inv(s')
  {
    assert DecidedAt(s', c, s'.clients[c], |s.moments|);
    forall d | 0 <= d < |s'.clients|
      ensures ClientOk(s', d, s'.clients[d])
    {
      if d != c { ClientKeeps(s, s', d, s.clients[d]); }
    }
    forall id | id in s'.flight
      ensures RequestOk(s', s'.flight[id])
    {
      RequestKeeps(s, s', s.flight[id]);
    }
  }

  /** A client puts a new request in flight. */
  lemma SendKeeps(s: State, s': State, c: nat, request: Request)
    requires Inv(s) && c < |s.clients| == |s'.clients|
    requires s' == Set(s.(flight := s.flight[s.next := request], next := s.next + 1), c, s'.clients[c])
    requires RequestOk(s, request) && ClientOk(s', c, s'.clients[c])
    ensures Inv(s')
  {
    forall d | 0 <= d < |s'.clients|
      ensures ClientOk(s', d, s'.clients[d])
    {
      if d != c { ClientKeeps(s, s', d, s.clients[d]); }
    }
    forall id | id in s'.flight
      ensures RequestOk(s', s'.flight[id])
    {
      if id in s.flight { RequestKeeps(s, s', s.flight[id]); } else { RequestKeeps(s, s', request); }
    }
  }

  /** An acknowledged event justifies its record. */
  lemma AckJustifies(s: State, c: nat, client: Client, i: nat)
    requires !client.Idle? && DecidedAt(s, c, client, i) && s.moments[i].outcome == Ok(client.expected + 1)
    requires client.event.revision == client.expected + 1 && client.event.idempotencyKey.Some?
    ensures Justified(s.stream, client.event.idempotencyKey.value, OutcomeFor(client.event, client.expected + 1))
  {
    var at :| 0 <= at < |s.stream| && s.stream[at] == Message(SubjectOf(s.prefix, client.event), Stored(client.event));
    assert s.stream[at].payload.Stored?;
  }

  /** And lets its client record it. */
  lemma AckAllows(s: State, s': State, c: nat, client: Client, i: nat)
    requires client.Waiting? && DecidedAt(s, c, client, i) && s.moments[i].outcome == Ok(client.expected + 1)
    requires s'.prefix == s.prefix && s'.stream == s.stream && s'.moments == s.moments
    ensures ClientOk(s', c, Recording(client.event, client.expected, client.since))
  {
    assert DecidedAt(s', c, Recording(client.event, client.expected, client.since), i);
  }

  lemma AckKeeps(s: State, c: nat, s': State)
    requires Inv(s) && ClientStep(s, Ack(c)) == Some(s')
    ensures Inv(s')
  {
    var client := s.clients[c];
    assert ClientOk(s, c, client);
    var i := s.verdicts[client.request];
    assert DecidedAt(s, c, client, i);
    if s.moments[i].outcome.Ok? && client.event.idempotencyKey.Some? {
      AckJustifies(s, c, client, i);
      AckAllows(s, s', c, client, i);
      SendKeeps(s, s', c, Record(client.event.idempotencyKey.value, OutcomeFor(client.event, client.expected + 1)));
    } else {
      assert DecidedAt(s, c, s'.clients[c], i);
      QuietKeeps(s, s', c);
    }
  }

  lemma ClientStepKeeps(s: State, step: Step, s': State)
    requires Inv(s) && !step.Deliver? && !step.Lose? && ClientStep(s, step) == Some(s')
    ensures Inv(s')
  {
    var c := step.c;
    var client := s.clients[c];
    assert ClientOk(s, c, client);
    match step
    case ReadLast(_) => ReadLastKeeps(s, c, s');
    case Ack(_) => AckKeeps(s, c, s');
    case Send(_) =>
      var request := Publish(c, client.expected, client.lastSequence, client.event);
      SendKeeps(s, s', c, request);
    case AckRecord(_) =>
      var i :| 0 <= i < |s.moments| && DecidedAt(s, c, client, i) && s.moments[i].outcome == Ok(client.expected + 1);
      assert DecidedAt(s, c, s'.clients[c], i);
      QuietKeeps(s, s', c);
    case _ => QuietKeeps(s, s', c);
  }

  /** A stream that grew by one message stays typed and justified. */
  lemma MessageKeeps(s: State, s': State, message: Message)
    requires Inv(s) && s'.prefix == s.prefix && s'.stream == s.stream + [message]
    requires match message.payload
             case Stored(event) => message.subject == SubjectOf(s.prefix, event)
             case Recorded(outcome) => exists key :: message.subject == IdemSubject(s.prefix, key) && Justified(s.stream, key, outcome)
    ensures Typed(s'.prefix, s'.stream) && RecordsOk(s')
  {
    forall i, key | 0 <= i < |s'.stream| && s'.stream[i].payload.Recorded? && s'.stream[i].subject == IdemSubject(s.prefix, key)
      ensures Justified(s'.stream[..i], key, s'.stream[i].payload.outcome)
    {
      if i < |s.stream| {
        assert s'.stream[i] == s.stream[i] && s'.stream[..i] == s.stream[..i];
      } else {
        assert s'.stream[..i] == s.stream;
        var key' :| message.subject == IdemSubject(s.prefix, key') && Justified(s.stream, key', message.payload.outcome);
        IdemSubjectInjective(s.prefix, key, key');
      }
    }
  }

  lemma RecordKeeps(s: State, id: nat, s': State)
    requires Inv(s) && id in s.flight && s.flight[id].Record? && ServerStep(s, Deliver(id)) == Some(s')
    ensures Inv(s')
  {
    var record := s.flight[id];
    assert RequestOk(s, record);
    var message := s'.stream[|s.stream|];
    assert message.subject == IdemSubject(s.prefix, record.key);
    MessageKeeps(s, s', message);
    forall root, role
      ensures EventsOn(s'.stream, EventSubject(s.prefix, root, role)) == EventsOn(s.stream, EventSubject(s.prefix, root, role))
    {
      EventsOnSnoc(s.stream, message, EventSubject(s.prefix, root, role));
    }
    OthersKeep(s, s', id);
  }

  /** A delivered request leaves the others, and every client, as they were. */
  lemma OthersKeep(s: State, s': State, id: nat)
    requires Inv(s) && id in s.flight && Onward(s, s') && s'.next == s.next && s'.clients == s.clients
    requires s'.flight == s.flight - {id}
    requires s'.verdicts == s.verdicts || (id in s'.verdicts && s'.verdicts == s.verdicts[id := s'.verdicts[id]])
    requires forall c :: 0 <= c < |s.clients| && s.clients[c].Waiting? && s.clients[c].request == id && id in s'.verdicts
               ==> DecidedAt(s', c, s.clients[c], s'.verdicts[id])
    ensures forall other :: other in s'.flight ==> other < s'.next && other !in s'.verdicts && RequestOk(s', s'.flight[other])
    ensures forall c :: 0 <= c < |s'.clients| ==> ClientOk(s', c, s'.clients[c])
  {
    forall other | other in s'.flight
      ensures RequestOk(s', s'.flight[other])
    {
      RequestKeeps(s, s', s.flight[other]);
    }
    forall c | 0 <= c < |s'.clients|
      ensures ClientOk(s', c, s'.clients[c])
    {
      var client := s.clients[c];
      assert ClientOk(s, c, client);
      if !(client.Waiting? && client.request == id) {
        ClientKeeps(s, s', c, client);
      }
    }
  }

  /** An accepted event is the next one of its subject; the others do not move. */
  lemma AcceptedCounts(s: State, s': State, event: ContextEvent)
    requires Inv(s) && s'.prefix == s.prefix
    requires s'.stream == s.stream + [Message(SubjectOf(s.prefix, event), Stored(event))]
    requires event.revision == |EventsOn(s.stream, SubjectOf(s.prefix, event))| + 1
    ensures Counted(s')
    ensures Matches(Replay(s.moments).value[SubjectOf(s.prefix, event) := event.revision], s'.stream, s.prefix)
  {
    forall root, role
      ensures EventsOn(s'.stream, EventSubject(s.prefix, root, role))
           == if EventSubject(s.prefix, root, role) == SubjectOf(s.prefix, event)
              then EventsOn(s.stream, EventSubject(s.prefix, root, role)) + [event]
              else EventsOn(s.stream, EventSubject(s.prefix, root, role))
    {
      EventsOnSnoc(s.stream, Message(SubjectOf(s.prefix, event), Stored(event)), EventSubject(s.prefix, root, role));
    }
  }

  lemma LoseKeeps(s: State, id: nat, s': State)
    requires Inv(s) && ServerStep(s, Lose(id)) == Some(s')
    ensures Inv(s')
  {
    assert forall c :: 0 <= c < |s.clients| ==> ClientOk(s, c, s.clients[c]);
    OthersKeep(s, s', id);
  }

  /** The call whose request is answered is decided at the answer's moment. */
  lemma AnswerDecides(s: State, id: nat, s': State)
    requires Inv(s) && id in s.flight && s.flight[id].Publish? && ServerStep(s, Deliver(id)) == Some(s')
    ensures forall c :: 0 <= c < |s.clients| && s.clients[c].Waiting? && s.clients[c].request == id
              ==> DecidedAt(s', c, s.clients[c], s'.verdicts[id])
  {
    if s'.moments[|s.moments|].outcome.Ok? {
      assert s'.stream[|s.stream|] in s'.stream;
    }
    forall c | 0 <= c < |s.clients| && s.clients[c].Waiting? && s.clients[c].request == id
      ensures DecidedAt(s', c, s.clients[c], s'.verdicts[id])
    {
      assert ClientOk(s, c, s.clients[c]);
    }
  }

  lemma RejectedKeeps(s: State, id: nat, s': State)
    requires Inv(s) && id in s.flight && s.flight[id].Publish? && ServerStep(s, Deliver(id)) == Some(s')
    requires s'.stream == s.stream
    ensures Inv(s')
  {
    var request := s.flight[id];
    assert RequestOk(s, request);
    DeliverMoment(s, request.event, request.expected, request.lastSequence);
    ReplaySnoc(s.moments, s'.moments[|s.moments|]);
    AnswerDecides(s, id, s');
    OthersKeep(s, s', id);
  }

  lemma AcceptedKeeps(s: State, id: nat, s': State)
    requires Inv(s) && id in s.flight && s.flight[id].Publish? && ServerStep(s, Deliver(id)) == Some(s')
    requires s'.stream == s.stream + [Message(SubjectOf(s.prefix, s.flight[id].event), Stored(s.flight[id].event))]
    ensures Inv(s')
  {
    var request := s.flight[id];
    assert RequestOk(s, request);
    assert |s'.stream| != |s.stream|;
    DeliverMoment(s, request.event, request.expected, request.lastSequence);
    ReplaySnoc(s.moments, s'.moments[|s.moments|]);
    MessageKeeps(s, s', s'.stream[|s.stream|]);
    AcceptedCounts(s, s', request.event);
    AnswerDecides(s, id, s');
    OthersKeep(s, s', id);
  }

  lemma PublishKeeps(s: State, id: nat, s': State)
    requires Inv(s) && id in s.flight && s.flight[id].Publish? && ServerStep(s, Deliver(id)) == Some(s')
    ensures Inv(s')
  {
    if s'.stream == s.stream { RejectedKeeps(s, id, s'); } else { AcceptedKeeps(s, id, s'); }
  }

  lemma StepKeeps(s: State, step: Step, s': State)
    requires Inv(s) && Apply(s, step) == Some(s')
    ensures Inv(s')
  {
    if step.Lose? {
      LoseKeeps(s, step.request, s');
    } else if step.Deliver? {
      if s.flight[step.request].Publish? { PublishKeeps(s, step.request, s'); } else { RecordKeeps(s, step.request, s'); }
    } else {
      ClientStepKeeps(s, step, s');
    }
  }

  lemma {:induction false} RunKeeps(s: State, steps: seq<Step>, s': State)
    requires Inv(s) && Run(s, steps) == Some(s')
    ensures Inv(s')
    decreases |steps|
  {
    if steps == [] {
    } else {
      StepKeeps(s, steps[0], Apply(s, steps[0]).value);
      RunKeeps(Apply(s, steps[0]).value, steps[1..], s');
    }
  }

  lemma InitialHolds(s: State)
    requires Initial(s)
    ensures Inv(s)
  {
    forall c | 0 <= c < |s.clients|
      ensures s.clients[c].Idle?
    {
      assert s.clients[c] in s.clients;
    }
  }

  // ---- what follows ----

  /** Linearizability: the moments of a run are a history of the atomic object that ends where
      the stream stands; every answer but `Unavailable` is the answer of the caller's own moment,
      inside its call; and an `Ok` answer has its event in the stream. */
  lemma Linearizable(s0: State, steps: seq<Step>, s: State)
    requires Initial(s0) && Run(s0, steps) == Some(s)
    ensures Replay(s.moments).Some? && Matches(Replay(s.moments).value, s.stream, s.prefix)
    ensures forall c :: 0 <= c < |s.clients| && s.clients[c].Returned? && s.clients[c].result != Err(Unavailable) ==>
              exists i :: s.clients[c].since <= i < |s.moments| && s.moments[i]
                == Moment(c, SubjectOf(s.prefix, s.clients[c].event), s.clients[c].expected, s.clients[c].result)
    ensures forall c :: 0 <= c < |s.clients| && s.clients[c].Returned? && s.clients[c].result.Ok? ==>
              StoredIn(s.stream, s.prefix, s.clients[c].event)
              && s.clients[c].result.value == s.clients[c].event.revision
  {
    InitialHolds(s0);
    RunKeeps(s0, steps, s);
    forall c | 0 <= c < |s.clients| && s.clients[c].Returned? && s.clients[c].result != Err(Unavailable)
      ensures exists i :: s.clients[c].since <= i < |s.moments| && s.moments[i]
                == Moment(c, SubjectOf(s.prefix, s.clients[c].event), s.clients[c].expected, s.clients[c].result)
      ensures s.clients[c].result.Ok? ==> StoredIn(s.stream, s.prefix, s.clients[c].event)
      ensures s.clients[c].result.Ok? ==> s.clients[c].result.value == s.clients[c].event.revision
    {
      var client := s.clients[c];
      assert ClientOk(s, c, client);
      var i :| 0 <= i < |s.moments| && DecidedAt(s, c, client, i) && s.moments[i].outcome == client.result;
      assert s.moments[i] == Moment(c, SubjectOf(s.prefix, client.event), client.expected, client.result);
    }
  }

  /** The stored revisions of every aggregate are 1, 2, 3, ... without gap or repeat. */
  lemma RevisionsCount(s0: State, steps: seq<Step>, s: State, root: string, role: string, i: nat)
    requires Initial(s0) && Run(s0, steps) == Some(s)
    requires i < |EventsOn(s.stream, EventSubject(s.prefix, root, role))|
    ensures EventsOn(s.stream, EventSubject(s.prefix, root, role))[i].revision == i + 1
  {
    InitialHolds(s0);
    RunKeeps(s0, steps, s);
  }

  /** An idempotency record is never invented: an event was stored before it under its key, at its
      revision and with its hash. Crashes and lost acks can only lose records. */
  lemma RecordsAreJustified(s0: State, steps: seq<Step>, s: State, i: nat, key: string)
    requires Initial(s0) && Run(s0, steps) == Some(s)
    requires i < |s.stream| && s.stream[i].subject == IdemSubject(s.prefix, key)
    ensures s.stream[i].payload.Recorded? && Justified(s.stream[..i], key, s.stream[i].payload.outcome)
  {
    InitialHolds(s0);
    RunKeeps(s0, steps, s);
    if s.stream[i].payload.Stored? {
      var event := s.stream[i].payload.event;
      EventIsNotIdem(s.prefix, event.root, event.role, key);
    }
  }

  /** Of all appends that expected one revision of one subject, at most one is accepted; every
      conflict found another revision at its moment. */
  lemma {:induction false} AtMostOneAccepted(moments: seq<Moment>, i: nat, j: nat)
    requires Replay(moments).Some? && i < j < |moments|
    requires moments[i].outcome.Ok? && moments[j].outcome.Ok? && moments[i].subject == moments[j].subject
    ensures moments[i].expected < moments[j].expected
    decreases |moments|
  {
    var init := moments[..|moments| - 1];
    if j < |moments| - 1 {
      AtMostOneAccepted(init, i, j);
    } else {
      AcceptedCounted(init, i);
    }
  }

  /** After an accepted append the counter stays above what it expected. */
  lemma {:induction false} AcceptedCounted(moments: seq<Moment>, i: nat)
    requires Replay(moments).Some? && i < |moments| && moments[i].outcome.Ok?
    ensures Current(Replay(moments).value, moments[i].subject) > moments[i].expected
    decreases |moments|
  {
    if i < |moments| - 1 {
      AcceptedCounted(moments[..|moments| - 1], i);
    }
  }

  lemma {:induction false} ConflictsAreReal(moments: seq<Moment>, i: nat)
    requires Replay(moments).Some? && i < |moments| && moments[i].outcome.Err?
    ensures Replay(moments[..i]).Some?
    ensures Current(Replay(moments[..i]).value, moments[i].subject) != moments[i].expected
    decreases |moments|
  {
    var init := moments[..|moments| - 1];
    if i < |init| {
      ConflictsAreReal(init, i);
      assert init[..i] == moments[..i];
    } else {
      assert moments[..i] == init;
    }
  }
}
