/** The JetStream stream the NATS adapter stores events in: subjects, sequences, compare and append. */
module JetStream {
  import opened Prelude

  datatype ContextEvent = ContextEvent(
    root: string, role: string, revision: nat, contentHash: string,
    idempotencyKey: Option<string>, logicalDigest: Option<string>)

  datatype IdempotentOutcome = IdempotentOutcome(revision: nat, contentHash: string, logicalDigest: Option<string>)

  datatype Payload = Stored(event: ContextEvent) | Recorded(outcome: IdempotentOutcome)

  datatype Message = Message(subject: string, payload: Payload)

  /** Messages in order; the sequence number of a message is its place, counted from one. */
  type Stream = seq<Message>

  // ---- subjects ----

  function EventSubject(prefix: string, root: string, role: string): string {
    prefix + ".cmd.evt." + root + "." + role
  }

  function IdemSubject(prefix: string, key: string): string {
    prefix + ".cmd.idem." + key
  }

  function SubjectOf(prefix: string, event: ContextEvent): string {
    EventSubject(prefix, event.root, event.role)
  }

  lemma EventIsNotIdem(prefix: string, root: string, role: string, key: string)
    ensures EventSubject(prefix, root, role) != IdemSubject(prefix, key)
  {
    assert EventSubject(prefix, root, role)[|prefix| + 5] == 'e';
    assert IdemSubject(prefix, key)[|prefix| + 5] == 'i';
  }

  /** The longer root ends in the part of the longer role that stands before the shorter one. */
  predicate Nested(root: string, role: string, root': string, role': string) {
    |root| < |root'| && root + "." <= root' && role == root'[|root| + 1..] + "." + role'
  }

  lemma JoinedIff(root: string, role: string, root': string, role': string)
    requires |root| < |root'|
    ensures root + "." + role == root' + "." + role' <==> Nested(root, role, root', role')
  {
    var x, y := root + "." + role, root' + "." + role';
    if x == y {
      assert x[..|root| + 1] == root + "." == y[..|root| + 1] == root'[..|root| + 1];
      assert role == x[|root| + 1..] == y[|root| + 1..] == root'[|root| + 1..] + "." + role';
    }
    if Nested(root, role, root', role') {
      assert root' == root + "." + root'[|root| + 1..];
      assert x == y;
    }
  }

  /** Two aggregates share a subject exactly when they are the same, or the dots of one role let part
      of it pass for the end of the other root. */
  lemma SubjectsMeetIff(prefix: string, root: string, role: string, root': string, role': string)
    ensures EventSubject(prefix, root, role) == EventSubject(prefix, root', role') <==>
              (root == root' && role == role') || Nested(root, role, root', role') || Nested(root', role', root, role)
  {
    var head := prefix + ".cmd.evt.";
    var x, y := root + "." + role, root' + "." + role';
    assert EventSubject(prefix, root, role) == head + x && EventSubject(prefix, root', role') == head + y;
    assert head + x == head + y <==> x == y by {
      assert (head + x)[|head|..] == x && (head + y)[|head|..] == y;
    }
    if |root| < |root'| {
      JoinedIff(root, role, root', role');
    } else if |root'| < |root| {
      JoinedIff(root', role', root, role);
    } else if x == y {
      assert root == x[..|root|] == y[..|root|] == root';
      assert role == x[|root| + 1..] == y[|root| + 1..] == role';
    }
  }

  /** The role ends in a dot and the other role. */
  predicate EndsInRole(role: string, other: string) {
    |role| > |other| && role[|role| - |other| - 1..] == "." + other
  }

  lemma NestedEnds(root: string, role: string, root': string, role': string)
    ensures Nested(root, role, root', role') ==> EndsInRole(role, role') && '.' in role
  {
    if Nested(root, role, root', role') {
      assert role[|role| - |role'| - 1] == '.';
    }
  }

  /** Two roles without a dot: an event subject determines root and role. */
  lemma EventSubjectInjective(prefix: string, root: string, role: string, root': string, role': string)
    requires '.' !in role && '.' !in role'
    requires EventSubject(prefix, root, role) == EventSubject(prefix, root', role')
    ensures root == root' && role == role'
  {
    SubjectsMeetIff(prefix, root, role, root', role');
    NestedEnds(root, role, root', role');
    NestedEnds(root', role', root, role);
  }

  /** Subjects of these roles determine root and role. */
  ghost predicate SubjectsTell(prefix: string, roles: set<string>) {
    forall root, role, root', role' ::
      role in roles && role' in roles && EventSubject(prefix, root, role) == EventSubject(prefix, root', role') ==>
        root == root' && role == role'
  }

  lemma EndingCollides(prefix: string, role: string, other: string) returns (root: string, root': string)
    requires EndsInRole(role, other)
    ensures root != root' && EventSubject(prefix, root, role) == EventSubject(prefix, root', other)
  {
    var z := role[..|role| - |other| - 1];
    assert role == z + "." + other;
    root, root' := "a", "a." + z;
    assert root'[|root| + 1..] == z;
    SubjectsMeetIff(prefix, root, role, root', other);
  }

  /** A set of roles is safe exactly when none of them ends in a dot and another of them: a dot in a
      role does no harm by itself. */
  lemma RolesSafeIff(prefix: string, roles: set<string>)
    ensures SubjectsTell(prefix, roles) <==> forall role, other :: role in roles && other in roles ==> !EndsInRole(role, other)
  {
    if forall role, other :: role in roles && other in roles ==> !EndsInRole(role, other) {
      forall root, role, root', role' | role in roles && role' in roles
                                        && EventSubject(prefix, root, role) == EventSubject(prefix, root', role')
        ensures root == root' && role == role'
      {
        SubjectsMeetIff(prefix, root, role, root', role');
        NestedEnds(root, role, root', role');
        NestedEnds(root', role', root, role);
      }
    }
    if SubjectsTell(prefix, roles) {
      forall role, other | role in roles && other in roles
        ensures !EndsInRole(role, other)
      {
        if EndsInRole(role, other) {
          var root, root' := EndingCollides(prefix, role, other);
        }
      }
    }
  }

  /** With a dotted role two aggregates share one subject, and so one revision history. */
  lemma DottedRolesCollide(prefix: string)
    ensures EventSubject(prefix, "a.b", "c") == EventSubject(prefix, "a", "b.c")
  {
    assert "a.b"[2..] == "b" && "a" + "." <= "a.b";
    SubjectsMeetIff(prefix, "a", "b.c", "a.b", "c");
  }

  lemma IdemSubjectInjective(prefix: string, key: string, key': string)
    requires IdemSubject(prefix, key) == IdemSubject(prefix, key')
    ensures key == key'
  {
    var head := prefix + ".cmd.idem.";
    assert key == IdemSubject(prefix, key)[|head|..];
    assert key' == IdemSubject(prefix, key')[|head|..];
  }

  // ---- reading ----

  /** The events stored on a subject, in order. */
  function EventsOn(stream: Stream, subject: string): seq<ContextEvent> {
    if stream == [] then []
    else
      var init, last := EventsOn(stream[..|stream| - 1], subject), stream[|stream| - 1];
      if last.subject == subject && last.payload.Stored? then init + [last.payload.event] else init
  }

  /** `get_last_raw_message_by_subject`: the sequence of the last message, zero when there is none. */
  function LastSequence(stream: Stream, subject: string): (n: nat)
    ensures n <= |stream|
    ensures n > 0 ==> stream[n - 1].subject == subject
    ensures forall i :: n <= i < |stream| ==> stream[i].subject != subject
  {
    if stream == [] then 0
    else if stream[|stream| - 1].subject == subject then |stream|
    else
      var n := LastSequence(stream[..|stream| - 1], subject);
      assert forall i :: 0 <= i < |stream| - 1 ==> stream[..|stream| - 1][i] == stream[i];
      n
  }

  /** Messages on other subjects do not move a subject's last sequence. */
  lemma LastSequenceOf(stream: Stream, message: Message, subject: string)
    ensures LastSequence(stream + [message], subject)
         == if message.subject == subject then |stream| + 1 else LastSequence(stream, subject)
  {
    assert (stream + [message])[..|stream|] == stream;
  }

  lemma EventsOnSnoc(stream: Stream, message: Message, subject: string)
    ensures EventsOn(stream + [message], subject)
         == if message.subject == subject && message.payload.Stored?
            then EventsOn(stream, subject) + [message.payload.event] else EventsOn(stream, subject)
  {
    assert (stream + [message])[..|stream|] == stream;
  }

  /** What a subject holds is what it held when its last message arrived. */
  lemma {:induction false} EventsUpToLast(stream: Stream, subject: string, n: nat)
    requires LastSequence(stream, subject) <= n <= |stream|
    ensures EventsOn(stream, subject) == EventsOn(stream[..n], subject)
    decreases |stream|
  {
    if n < |stream| {
      var init := stream[..|stream| - 1];
      assert stream == init + [stream[|stream| - 1]];
      LastSequenceOf(init, stream[|stream| - 1], subject);
      EventsUpToLast(init, subject, n);
      assert init[..n] == stream[..n];
    } else {
      assert stream[..n] == stream;
    }
  }

  /** Prefixes keep their own history. */
  lemma {:induction false} EventsOnGrow(stream: Stream, more: Stream, subject: string)
    ensures EventsOn(stream, subject) <= EventsOn(stream + more, subject)
    ensures LastSequence(stream, subject) <= LastSequence(stream + more, subject)
    decreases |more|
  {
    if more == [] {
      assert stream + more == stream;
    } else {
      var init, last := more[..|more| - 1], more[|more| - 1];
      assert stream + more == (stream + init) + [last];
      EventsOnGrow(stream, init, subject);
      EventsOnSnoc(stream + init, last, subject);
      LastSequenceOf(stream + init, last, subject);
    }
  }

  /** Only events are ever stored on an event subject. */
  ghost predicate Typed(prefix: string, stream: Stream) {
    forall i :: 0 <= i < |stream| ==>
      match stream[i].payload
      case Stored(event) => stream[i].subject == SubjectOf(prefix, event)
      case Recorded(_) => exists key :: stream[i].subject == IdemSubject(prefix, key)
  }

  /** Every message on an event subject is an event: a last message means a last event. */
  lemma {:induction false} LastEvent(prefix: string, stream: Stream, root: string, role: string)
    requires Typed(prefix, stream)
    ensures var subject := EventSubject(prefix, root, role);
            var n, events := LastSequence(stream, subject), EventsOn(stream, subject);
            && (n == 0 <==> events == [])
            && (n > 0 ==> stream[n - 1].payload.Stored? && stream[n - 1].payload.event == events[|events| - 1])
    decreases |stream|
  {
    if stream == [] {
    } else {
      var subject := EventSubject(prefix, root, role);
      var init, last := stream[..|stream| - 1], stream[|stream| - 1];
      assert stream == init + [last];
      if last.subject == subject {
        match last.payload
        case Stored(_) =>
        case Recorded(_) =>
          var key :| last.subject == IdemSubject(prefix, key);
          EventIsNotIdem(prefix, root, role, key);
      } else {
        assert Typed(prefix, init) by {
          assert forall i :: 0 <= i < |init| ==> init[i] == stream[i];
        }
        LastEvent(prefix, init, root, role);
      }
    }
  }

  /** A subject that moved since a prefix holds more events than it did then. */
  lemma MovedMeansMore(prefix: string, stream: Stream, root: string, role: string, k: nat)
    requires Typed(prefix, stream)
    requires k < LastSequence(stream, EventSubject(prefix, root, role))
    ensures |EventsOn(stream[..k], EventSubject(prefix, root, role))| < |EventsOn(stream, EventSubject(prefix, root, role))|
  {
    var subject := EventSubject(prefix, root, role);
    var n := LastSequence(stream, subject);
    LastEvent(prefix, stream, root, role);
    EventsUpToLast(stream, subject, n);
    var before, last := stream[..n - 1], stream[n - 1];
    assert stream[..n] == before + [last];
    EventsOnSnoc(before, last, subject);
    assert before == stream[..k] + stream[k..n - 1];
    EventsOnGrow(stream[..k], stream[k..n - 1], subject);
  }
}
