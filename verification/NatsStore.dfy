/** The adapter's calls, with what other clients store between their steps as a parameter. */
module NatsStore {
  import opened Prelude
  import opened JetStream
  import opened NatsAppend

  class JetStreamContext {
    var messages: Stream

    /** Other clients' accepted messages. */
    method Others(more: Stream)
      modifies this
      ensures messages == old(messages) + more
    {
      messages := messages + more;
    }

    /** A publish under `NATS_EXPECTED_LAST_SUBJECT_SEQUENCE`, or under no condition. */
    method PublishMessage(message: Message, expectedLast: Option<nat>) returns (accepted: bool)
      modifies this
      ensures accepted <==> expectedLast.None? || LastSequence(old(messages), message.subject) == expectedLast.value
      ensures messages == if accepted then old(messages) + [message] else old(messages)
    {
      accepted := expectedLast.None? || LastSequence(messages, message.subject) == expectedLast.value;
      if accepted {
        messages := messages + [message];
      }
    }
  }

  datatype PublishFate = Acked | NotSent | AckLost

  /** What happens around one append: messages of others before its read, between its read and
      its publish, and before its record; and the fate of its own requests. */
  datatype AppendIo = AppendIo(
    readFails: bool, before: Stream, between: Stream, publish: PublishFate, after: Stream, record: PublishFate)

  class NatsContextEventStore {
    const js: JetStreamContext
    const prefix: string

    constructor (js: JetStreamContext, prefix: string)
      ensures this.js == js && this.prefix == prefix
    {
      this.js := js;
      this.prefix := prefix;
    }

    /** `last_event_for`: revision, content hash and sequence of the last event, if any. */
    method LastEventFor(root: string, role: string) returns (last: Option<(nat, string, nat)>)
      requires Typed(prefix, js.messages)
      ensures var events := EventsOn(js.messages, EventSubject(prefix, root, role));
              last == if events == [] then None
                      else Some((events[|events| - 1].revision, events[|events| - 1].contentHash,
                                 LastSequence(js.messages, EventSubject(prefix, root, role))))
    {
      LastEvent(prefix, js.messages, root, role);
      var n := LastSequence(js.messages, EventSubject(prefix, root, role));
      if n == 0 {
        return None;
      }
      var event := js.messages[n - 1].payload.event;
      return Some((event.revision, event.contentHash, n));
    }

    method CurrentRevision(root: string, role: string) returns (revision: nat)
      requires Typed(prefix, js.messages)
      ensures revision == ReadRevision(js.messages, EventSubject(prefix, root, role))
    {
      LastEvent(prefix, js.messages, root, role);
      var last := LastEventFor(root, role);
      revision := if last.Some? then last.value.0 else 0;
    }

    /** `append`. An `Ok` answer means the event is stored and the subject had not moved since the
        read; a `Conflict` that it stood elsewhere than expected at the read, or moved after it;
        an `Unavailable` may have stored the event. The record is stored only after the event. */
    method Append(event: ContextEvent, expected: nat, io: AppendIo) returns (r: Result<nat, PortError>)
      requires Typed(prefix, js.messages + io.before)
      modifies js
      ensures var subject := SubjectOf(prefix, event);
              var read := old(js.messages) + io.before;
              var sent := read + io.between;
              var unmoved := LastSequence(sent, subject) == LastSequence(read, subject);
              var stored := sent + [Message(subject, Stored(event))];
              if io.readFails then r == Err(Unavailable) && js.messages == read
              else if ReadRevision(read, subject) != expected then r == Err(Conflict) && js.messages == read
              else if io.publish == NotSent then r == Err(Unavailable) && js.messages == sent
              else if !unmoved then
                && r == Err(if io.publish == Acked then Conflict else Unavailable)
                && js.messages == sent
              else if io.publish == AckLost then r == Err(Unavailable) && js.messages == stored
              else
                && r == Ok(expected + 1)
                && js.messages == stored + io.after
                     + (if event.idempotencyKey.Some? && io.record != NotSent
                        then [Message(IdemSubject(prefix, event.idempotencyKey.value),
                                      Recorded(OutcomeFor(event, expected + 1)))]
                        else [])
    {
      js.Others(io.before);
      if io.readFails {
        return Err(Unavailable);
      }
      var subject := SubjectOf(prefix, event);
      LastEvent(prefix, js.messages, event.root, event.role);
      var last := LastEventFor(event.root, event.role);
      var current, sequence := 0, 0;
      if last.Some? {
        current, sequence := last.value.0, last.value.2;
      }
      if current != expected {
        return Err(Conflict);
      }
      var revision := current + 1;
      var outcome := OutcomeFor(event, revision);
      js.Others(io.between);
      if io.publish == NotSent {
        return Err(Unavailable);
      }
      var accepted := js.PublishMessage(Message(subject, Stored(event)), Some(sequence));
      if io.publish == AckLost {
        return Err(Unavailable);
      }
      if !accepted {
        return Err(Conflict);
      }
      js.Others(io.after);
      if event.idempotencyKey.Some? && io.record != NotSent {
        var _ := js.PublishMessage(Message(IdemSubject(prefix, event.idempotencyKey.value), Recorded(outcome)), None);
      }
      return Ok(revision);
    }

    /** `find_by_idempotency_key`: the last record under the key. */
    method FindByIdempotencyKey(key: string) returns (found: Option<IdempotentOutcome>)
      requires Typed(prefix, js.messages)
      ensures var n := LastSequence(js.messages, IdemSubject(prefix, key));
              && (n == 0 ==> found == None)
              && (n > 0 ==> found.Some? && js.messages[n - 1].payload == Recorded(found.value))
    {
      var n := LastSequence(js.messages, IdemSubject(prefix, key));
      if n == 0 {
        return None;
      }
      if js.messages[n - 1].payload.Stored? {
        var event := js.messages[n - 1].payload.event;
        EventIsNotIdem(prefix, event.root, event.role, key);
        assert false;
      }
      return Some(js.messages[n - 1].payload.outcome);
    }
  }

  /** The stored event carries the returned revision, if and only if its caller wrote it so. */
  lemma StoredIsReturned(stream: Stream, subject: string, event: ContextEvent, expected: nat)
    ensures ReadRevision(stream + [Message(subject, Stored(event))], subject) == expected + 1
            <==> event.revision == expected + 1
  {
    LastSequenceOf(stream, Message(subject, Stored(event)), subject);
  }
}
