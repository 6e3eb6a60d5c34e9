/** Assembling every episode's outcome into one session graph, whatever order the attempts ended in. */
module SessionPlan {
  import opened Prelude
  import opened Ordering
  import opened Contracts
  import opened Segment
  import opened Planner

  datatype Attempt =
    | Completed(episodeId: string, observedAt: Clock, revision: string, version: string,
                extracted: seq<Memory>, verified: seq<Verdict>)
    | Failed(episodeId: string, observedAt: Clock, revision: string, error: string)

  datatype Outcome =
    | FailedOutcome(episodeId: string, error: string)
    | CompletedOutcome(episodeId: string, acceptedCount: nat, rejected: seq<Rejected>)

  datatype Status = EmptySession | Partial | AllCompleted

  datatype Compiled = Compiled(
    results: seq<Outcome>, policy: Policy, excludedBlankSourceIds: seq<string>,
    baseline: Option<Ingest>, formed: Option<Ingest>, status: Status)

  // ---- the attempts ----

  function EpisodeIds(rows: seq<Row>): set<string> {
    set row | row in rows :: row.episode.episodeId
  }

  /** `{r['episode']['episode_id']: r['episode'] for r in …}`. */
  function EpisodeMap(rows: seq<Row>): (m: map<string, Episode>)
    ensures m.Keys == EpisodeIds(rows)
    ensures forall id :: id in m ==> m[id].episodeId == id && exists row :: row in rows && row.episode == m[id]
  {
    if rows == [] then map[]
    else
      var init, last := rows[..|rows| - 1], rows[|rows| - 1];
      assert rows == init + [last];
      EpisodeMap(init)[last.episode.episodeId := last.episode]
  }

  function AttemptIds(attempts: seq<Attempt>): set<string> {
    set a | a in attempts :: a.episodeId
  }

  predicate AttemptOk(a: Attempt, e: Episode, digest: Digested -> string) {
    && Accepted(a.revision, 256) && ClockOk(a.observedAt) && ReportedBy(e.sources, a.observedAt)
    && match a
       case Failed(_, _, _, error) => Accepted(error, 4000)
       case Completed(_, at, revision, version, extracted, verified) =>
         version == VERSION && PlanOk(e, extracted, verified, revision, at, digest)
  }

  /** What one attempt comes to: refused, a failure, or a plan compiled afresh. */
  function Checked(a: Attempt, episodes: map<string, Episode>, digest: Digested -> string): Result<Option<Plan>, Refusal> {
    if a.episodeId !in episodes || !AttemptOk(a, episodes[a.episodeId], digest) then Err(ValueError)
    else if a.Failed? then Ok(None)
    else Ok(Some(PlanOf(episodes[a.episodeId], a.extracted, a.verified, a.revision, a.observedAt, digest)))
  }

  type Checker = Attempt -> Result<Option<Plan>, Refusal>

  function CheckerOf(episodes: map<string, Episode>, digest: Digested -> string): Checker {
    (a: Attempt) => Checked(a, episodes, digest)
  }

  /** The checker says of every attempt what it comes to. */
  ghost predicate Checks(check: Checker, episodes: map<string, Episode>, digest: Digested -> string) {
    forall a {:trigger Checked(a, episodes, digest)} :: check(a) == Checked(a, episodes, digest)
  }

  lemma CheckerChecks(episodes: map<string, Episode>, digest: Digested -> string)
    ensures Checks(CheckerOf(episodes, digest), episodes, digest)
  {
  }

  /** Each attempt is acceptable and names an episode no earlier one named. */
  predicate AttemptsAccepted(attempts: seq<Attempt>, check: Checker) {
    attempts == [] ||
    var init, last := attempts[..|attempts| - 1], attempts[|attempts| - 1];
    AttemptsAccepted(init, check) && last.episodeId !in AttemptIds(init) && check(last).Ok?
  }

  function WithPlan(plans: map<string, Plan>, a: Attempt, check: Checker): map<string, Plan> {
    var checked := check(a);
    if checked.Ok? && checked.value.Some? then plans[a.episodeId := checked.value.value] else plans
  }

  function Plans(attempts: seq<Attempt>, check: Checker): map<string, Plan> {
    if attempts == [] then map[]
    else WithPlan(Plans(attempts[..|attempts| - 1], check), attempts[|attempts| - 1], check)
  }

  function OutcomeOf(a: Attempt, check: Checker): Outcome {
    match a
    case Failed(id, _, _, error) => FailedOutcome(id, error)
    case Completed(id, _, _, _, _, _) =>
      var checked := check(a);
      if checked.Ok? && checked.value.Some?
      then CompletedOutcome(id, checked.value.value.acceptedCount, checked.value.value.rejected)
      else CompletedOutcome(id, 0, [])
  }

  function Outcomes(attempts: seq<Attempt>, check: Checker): seq<Outcome> {
    if attempts == [] then []
    else Outcomes(attempts[..|attempts| - 1], check) + [OutcomeOf(attempts[|attempts| - 1], check)]
  }

  function WithRevision(revisions: seq<string>, revision: string): seq<string> {
    if revision in revisions then revisions else revisions + [revision]
  }

  /** The revisions used, each once. */
  function Revisions(attempts: seq<Attempt>): (r: seq<string>)
    ensures !Repeats(r) && forall v :: v in r <==> exists a :: a in attempts && a.revision == v
  {
    if attempts == [] then []
    else
      var init, last := attempts[..|attempts| - 1], attempts[|attempts| - 1];
      assert attempts == init + [last];
      WithRevision(Revisions(init), last.revision)
  }

  /** How `max(clocks)` compares: by instant, then by the text reported. */
  predicate ClockLe(a: Clock, b: Clock) {
    Instant(a) < Instant(b) || (Instant(a) == Instant(b) && TextLe(a.raw, b.raw))
  }

  function LatestClock(attempts: seq<Attempt>): Clock
    requires attempts != []
  {
    var last := attempts[|attempts| - 1].observedAt;
    if |attempts| == 1 then last
    else
      var best := LatestClock(attempts[..|attempts| - 1]);
      if ClockLe(best, last) then last else best
  }

  lemma {:induction false} AttemptsPrefix(attempts: seq<Attempt>, check: Checker, n: nat)
    requires AttemptsAccepted(attempts, check) && n <= |attempts|
    ensures AttemptsAccepted(attempts[..n], check)
    decreases |attempts|
  {
    if n < |attempts| {
      AttemptsPrefix(attempts[..|attempts| - 1], check, n);
      assert attempts[..|attempts| - 1][..n] == attempts[..n];
    } else {
      assert attempts[..n] == attempts;
    }
  }

  lemma RefusedStays(attempts: seq<Attempt>, check: Checker, n: nat)
    requires n <= |attempts| && !AttemptsAccepted(attempts[..n], check)
    ensures !AttemptsAccepted(attempts, check)
  {
    if AttemptsAccepted(attempts, check) { AttemptsPrefix(attempts, check, n); }
  }

  /** What the pass has gathered. */
  datatype Gathered = Gathered(plans: map<string, Plan>, results: seq<Outcome>, revisions: seq<string>)

  function Gather(attempts: seq<Attempt>, check: Checker): Gathered {
    Gathered(Plans(attempts, check), Outcomes(attempts, check), Revisions(attempts))
  }

  function With(g: Gathered, a: Attempt, check: Checker): Gathered {
    Gathered(WithPlan(g.plans, a, check), g.results + [OutcomeOf(a, check)], WithRevision(g.revisions, a.revision))
  }

  lemma GatherNone(check: Checker)
    ensures AttemptsAccepted([], check) && AttemptIds([]) == {} && Gather([], check) == Gathered(map[], [], [])
  {
  }

  /** What one more attempt adds. */
  lemma GatherSnoc(init: seq<Attempt>, a: Attempt, check: Checker)
    ensures AttemptsAccepted(init + [a], check) <==>
              AttemptsAccepted(init, check) && a.episodeId !in AttemptIds(init) && check(a).Ok?
    ensures Gather(init + [a], check) == With(Gather(init, check), a, check)
    ensures AttemptIds(init + [a]) == AttemptIds(init) + {a.episodeId}
  {
    assert (init + [a])[..|init + [a]| - 1] == init;
  }

  /** A failure is only reported; a completed attempt also leaves its plan. */
  method Record(g: Gathered, a: Attempt, plan: Option<Plan>, ghost check: Checker) returns (r: Gathered)
    requires check(a) == Ok(plan) && (plan.Some? <==> a.Completed?)
    ensures r == With(g, a, check)
  {
    var revisions := if a.revision in g.revisions then g.revisions else g.revisions + [a.revision];
    match a
    case Failed(id, _, _, error) =>
      return Gathered(g.plans, g.results + [FailedOutcome(id, error)], revisions);
    case Completed(id, _, _, _, _, _) =>
      var done := CompletedOutcome(id, plan.value.acceptedCount, plan.value.rejected);
      return Gathered(g.plans[id := plan.value], g.results + [done], revisions);
  }

  /** The pass so far: every attempt accepted, what they leave pending, what they come to. */
  ghost predicate Collecting(done: seq<Attempt>, pending: set<string>, g: Gathered, episodes: map<string, Episode>, check: Checker) {
    AttemptsAccepted(done, check) && pending == episodes.Keys - AttemptIds(done) && g == Gather(done, check)
  }

  /** One attempt of the pass: of an episode still pending, and acceptable. */
  method CollectOne(g: Gathered, pending: set<string>, a: Attempt, episodes: map<string, Episode>, digest: Digested -> string,
                    ghost done: seq<Attempt>, ghost check: Checker)
    returns (ok: bool, g': Gathered)
    requires Checks(check, episodes, digest) && Collecting(done, pending, g, episodes, check)
    ensures ok <==> AttemptsAccepted(done + [a], check)
    ensures ok ==> Collecting(done + [a], pending - {a.episodeId}, g', episodes, check)
  {
    GatherSnoc(done, a, check);
    if a.episodeId !in pending {
      if a.episodeId !in episodes { assert check(a) == Checked(a, episodes, digest); }
      return false, g;
    }
    var checked := Check(a, episodes, digest, check);
    if checked.Err? {
      return false, g;
    }
    g' := Record(g, a, checked.value, check);
    ok := true;
  }

  lemma CollectingNone(episodes: map<string, Episode>, check: Checker)
    ensures Collecting([], episodes.Keys, Gathered(map[], [], []), episodes, check)
  {
    GatherNone(check);
  }

  /** The attempts in turn, up to the first that is refused. */
  method CollectUntil(attempts: seq<Attempt>, episodes: map<string, Episode>, digest: Digested -> string, ghost check: Checker)
    returns (ok: bool, g: Gathered, ghost done: seq<Attempt>)
    requires Checks(check, episodes, digest)
    ensures |done| <= |attempts| && done == attempts[..|done|] && (ok ==> done == attempts)
    ensures ok <==> AttemptsAccepted(done, check)
    ensures ok ==> g == Gather(done, check)
  {
    g, done := Gathered(map[], [], []), [];
    CollectingNone(episodes, check);
    var pending := episodes.Keys;
    for i := 0 to |attempts|
      invariant |done| == i && done == attempts[..i]
      invariant Collecting(done, pending, g, episodes, check)
    {
      ok, g := CollectOne(g, pending, attempts[i], episodes, digest, done, check);
      TakeSnoc(attempts, i);
      done := done + [attempts[i]];
      if !ok {
        return;
      }
      pending := pending - {attempts[i].episodeId};
    }
    TakeAll(attempts);
    ok := true;
  }

  /** The pass over the attempts, in the order they ended. */
  method Collect(attempts: seq<Attempt>, episodes: map<string, Episode>, digest: Digested -> string, ghost check: Checker)
    returns (ok: bool, g: Gathered)
    requires Checks(check, episodes, digest)
    ensures ok <==> AttemptsAccepted(attempts, check)
    ensures ok ==> g == Gather(attempts, check)
  {
    ghost var done;
    ok, g, done := CollectUntil(attempts, episodes, digest, check);
    if !ok { RefusedStays(attempts, check, |done|); }
  }

  /** One attempt, its proposals and verdicts validated again rather than trusted. */
  method Check(a: Attempt, episodes: map<string, Episode>, digest: Digested -> string, ghost check: Checker)
    returns (r: Result<Option<Plan>, Refusal>)
    requires Checks(check, episodes, digest)
    ensures r == check(a)
    ensures r.Ok? ==> a.episodeId in episodes && (r.value.Some? <==> a.Completed?)
  {
    assert check(a) == Checked(a, episodes, digest);
    if a.episodeId !in episodes {
      return Err(ValueError);
    }
    var e := episodes[a.episodeId];
    if !Accepted(a.revision, 256) || !ClockOk(a.observedAt) || !ReportedBy(e.sources, a.observedAt) {
      return Err(ValueError);
    }
    match a
    case Failed(_, _, _, error) =>
      return if Accepted(error, 4000) then Ok(None) else Err(ValueError);
    case Completed(_, at, revision, version, extracted, verified) =>
      if version != VERSION {
        return Err(ValueError);
      }
      var compiled := CompilePlan(e, extracted, verified, revision, at, digest);
      return if compiled.Ok? then Ok(Some(compiled.value)) else Err(ValueError);
  }

  // ---- the graph ----

  /** `translated`: the plan's name of an original to the session's. */
  function Translation(entries: seq<Entry>, about: string, hash: string, digest: Digested -> string): map<string, string> {
    if entries == [] then map[]
    else
      var init, last := Translation(entries[..|entries| - 1], about, hash, digest), entries[|entries| - 1];
      if last.Original? then init[last.id := SourceRef(about, hash, last.sourceId, digest)] else init
  }

  function Adopted(e: Entry, episodeId: string, scopeId: string, sequence: nat): Entry
    requires e.Derived?
  {
    Derived(e.id, e.text, e.category, e.revision, e.sourceHash, Some(episodeId),
            Coordinate(scopeId, sequence, e.at.occurredAt, e.at.observedAt))
  }

  /** The derived entries of one plan, appended and renumbered. */
  function Adopt(formed: seq<Entry>, entries: seq<Entry>, episodeId: string, scopeId: string): seq<Entry> {
    if entries == [] then formed
    else
      var init, last := Adopt(formed, entries[..|entries| - 1], episodeId, scopeId), entries[|entries| - 1];
      if last.Derived? then init + [Adopted(last, episodeId, scopeId, |init| + 1)] else init
  }

  function Renamed(translated: map<string, string>, id: string): string {
    if id in translated then translated[id] else ""
  }

  function MovedRelations(relations: seq<Relation>, translated: map<string, string>): (r: seq<Relation>)
    ensures |r| == |relations|
    ensures forall i :: 0 <= i < |r| ==> r[i] == relations[i].(target := Renamed(translated, relations[i].target))
  {
    seq(|relations|, i requires 0 <= i < |relations| => relations[i].(target := Renamed(translated, relations[i].target)))
  }

  function MovedEvidence(evidence: seq<Proof>, translated: map<string, string>): (r: seq<Proof>)
    ensures |r| == |evidence|
    ensures forall i :: 0 <= i < |r| ==> r[i] == evidence[i].(source := Renamed(translated, evidence[i].source))
  {
    seq(|evidence|, i requires 0 <= i < |evidence| => evidence[i].(source := Renamed(translated, evidence[i].source)))
  }

  /** Assembled in planned episode order: an episode without a plan contributes nothing. */
  function Assembled(rows: seq<Row>, plans: map<string, Plan>, base: seq<Entry>, about: string, hash: string,
                     scopeId: string, digest: Digested -> string): Graph
  {
    if rows == [] then Graph(base, [], [])
    else
      var init, id := Assembled(rows[..|rows| - 1], plans, base, about, hash, scopeId, digest), rows[|rows| - 1].episode.episodeId;
      if id !in plans then init
      else
        var graph := plans[id].ingest.graph;
        var translated := Translation(graph.entries, about, hash, digest);
        Graph(Adopt(init.entries, graph.entries, id, scopeId),
              init.relations + MovedRelations(graph.relations, translated),
              init.evidence + MovedEvidence(graph.evidence, translated))
  }

  function ScopeOf(hash: string): string {
    "formation-session-" + First(hash, 24)
  }

  function BaselineOf(session: Session, digest: Digested -> string): Ingest
    requires Usable(session.sources) != []
  {
    var hash, nonblank := digest(OfSession(session)), Usable(session.sources);
    Ingest(session.about, "formation-source-session:" + hash, nonblank[0].observedAt, ScopeOf(hash),
           Graph(Originals(nonblank, session.about, hash, ScopeOf(hash), digest), [], []))
  }

  function FormedOf(session: Session, policy: Policy, rows: seq<Row>, attempts: seq<Attempt>, digest: Digested -> string): Ingest
    requires Usable(session.sources) != [] && attempts != []
  {
    var hash, baseline := digest(OfSession(session)), BaselineOf(session, digest);
    Ingest(session.about,
           "formation-session:" + digest(OfFormed(hash, policy, VERSION, Sort(Revisions(attempts), TextLe))),
           LatestClock(attempts), ScopeOf(hash),
           Assembled(rows, Plans(attempts, CheckerOf(EpisodeMap(rows), digest)), baseline.graph.entries, session.about, hash,
                     ScopeOf(hash), digest))
  }

  predicate AnyFailed(results: seq<Outcome>) {
    exists r :: r in results && r.FailedOutcome?
  }

  // ---- assembly, in planned order ----

  /** Every reference a plan makes can be translated. */
  ghost predicate Resolves(g: Graph) {
    && (forall r :: r in g.relations ==> NamesOriginal(g.entries, r.target))
    && (forall p :: p in g.evidence ==> NamesOriginal(g.entries, p.source))
  }

  lemma {:induction false} TranslationHas(entries: seq<Entry>, about: string, hash: string, digest: Digested -> string, id: string)
    ensures id in Translation(entries, about, hash, digest) <==> NamesOriginal(entries, id)
    decreases |entries|
  {
    if entries == [] {
    } else {
      var init, last := entries[..|entries| - 1], entries[|entries| - 1];
      assert entries == init + [last];
      TranslationHas(init, about, hash, digest, id);
      if NamesOriginal(init, id) {
        var e :| e in init && e.Original? && e.id == id;
        assert e in entries;
      }
    }
  }

  method Translate(entries: seq<Entry>, about: string, hash: string, digest: Digested -> string)
    returns (translated: map<string, string>)
    ensures translated == Translation(entries, about, hash, digest)
  {
    translated := map[];
    for i := 0 to |entries|
      invariant translated == Translation(entries[..i], about, hash, digest)
    {
      TakeSnoc(entries, i);
      if entries[i].Original? {
        translated := translated[entries[i].id := SourceRef(about, hash, entries[i].sourceId, digest)];
      }
    }
    TakeAll(entries);
  }

  method AdoptAll(formed: seq<Entry>, entries: seq<Entry>, episodeId: string, scopeId: string) returns (r: seq<Entry>)
    ensures r == Adopt(formed, entries, episodeId, scopeId)
  {
    r := formed;
    for i := 0 to |entries|
      invariant r == Adopt(formed, entries[..i], episodeId, scopeId)
    {
      TakeSnoc(entries, i);
      if entries[i].Derived? {
        r := r + [Adopted(entries[i], episodeId, scopeId, |r| + 1)];
      }
    }
    TakeAll(entries);
  }

  method Move(relations: seq<Relation>, evidence: seq<Proof>, translated: map<string, string>)
    returns (r: seq<Relation>, e: seq<Proof>)
    requires forall x :: x in relations ==> x.target in translated
    requires forall x :: x in evidence ==> x.source in translated
    ensures r == MovedRelations(relations, translated) && e == MovedEvidence(evidence, translated)
  {
    r, e := [], [];
    for i := 0 to |relations|
      invariant |r| == i
      invariant forall k :: 0 <= k < i ==> r[k] == relations[k].(target := Renamed(translated, relations[k].target))
    {
      r := r + [relations[i].(target := translated[relations[i].target])];
    }
    for i := 0 to |evidence|
      invariant |e| == i
      invariant forall k :: 0 <= k < i ==> e[k] == evidence[k].(source := Renamed(translated, evidence[k].source))
    {
      e := e + [evidence[i].(source := translated[evidence[i].source])];
    }
  }

  /** Whatever order the attempts ended in, their plans are taken up in planned episode order. */
  method Assemble(rows: seq<Row>, plans: map<string, Plan>, base: seq<Entry>, about: string, hash: string, scopeId: string,
                  digest: Digested -> string)
    returns (g: Graph)
    requires forall id :: id in plans ==> Resolves(plans[id].ingest.graph)
    ensures g == Assembled(rows, plans, base, about, hash, scopeId, digest)
  {
    g := Graph(base, [], []);
    for i := 0 to |rows|
      invariant g == Assembled(rows[..i], plans, base, about, hash, scopeId, digest)
    {
      TakeSnoc(rows, i);
      var id := rows[i].episode.episodeId;
      if id in plans {
        var graph := plans[id].ingest.graph;
        var translated := Translate(graph.entries, about, hash, digest);
        forall x
          ensures x in translated <==> NamesOriginal(graph.entries, x)
        {
          TranslationHas(graph.entries, about, hash, digest, x);
        }
        var relations, evidence := Move(graph.relations, graph.evidence, translated);
        var entries := AdoptAll(g.entries, graph.entries, id, scopeId);
        g := Graph(entries, g.relations + relations, g.evidence + evidence);
      }
    }
    TakeAll(rows);
  }

  // ---- the attempts as a set ----

  predicate Completes(a: Attempt, id: string, check: Checker) {
    a.episodeId == id && check(a).Ok? && check(a).value.Some?
  }

  predicate SomeCompletes(attempts: seq<Attempt>, id: string, check: Checker) {
    exists a :: a in attempts && Completes(a, id, check)
  }

  /** The plans are those of the attempts that completed, each under its own episode. */
  lemma {:induction false} PlansAre(attempts: seq<Attempt>, check: Checker)
    requires AttemptsAccepted(attempts, check)
    ensures forall id :: id in Plans(attempts, check) <==> SomeCompletes(attempts, id, check)
    ensures forall a, id :: a in attempts && Completes(a, id, check) ==>
              id in Plans(attempts, check) && Plans(attempts, check)[id] == check(a).value.value
    decreases |attempts|
  {
    if attempts == [] {
    } else {
      var init, last := attempts[..|attempts| - 1], attempts[|attempts| - 1];
      assert attempts == init + [last];
      PlansAre(init, check);
      forall id
        ensures SomeCompletes(attempts, id, check) <==> SomeCompletes(init, id, check) || Completes(last, id, check)
      {
        if SomeCompletes(init, id, check) {
          var a :| a in init && Completes(a, id, check);
          assert a in attempts;
        }
        assert last in attempts;
      }
    }
  }

  /** Acceptance says nothing about order: every attempt passes, none is given twice, and no two
      name one episode. */
  ghost predicate AcceptedAsSet(attempts: seq<Attempt>, check: Checker) {
    && (forall a :: a in attempts ==> check(a).Ok? && multiset(attempts)[a] == 1)
    && (forall a, b :: a in attempts && b in attempts && a.episodeId == b.episodeId ==> a == b)
  }

  lemma CountsSnoc(init: seq<Attempt>, last: Attempt)
    ensures forall a :: a in init + [last] <==> a in init || a == last
    ensures forall a :: multiset(init + [last])[a] == multiset(init)[a] + (if a == last then 1 else 0)
  {
  }

  lemma AsSetShrinks(init: seq<Attempt>, last: Attempt, check: Checker)
    requires AcceptedAsSet(init + [last], check)
    ensures AcceptedAsSet(init, check) && last.episodeId !in AttemptIds(init) && check(last).Ok?
  {
    CountsSnoc(init, last);
    assert last !in init by {
      assert multiset(init + [last])[last] == 1;
      assert last in init <==> last in multiset(init);
    }
    forall a | a in init
      ensures a.episodeId != last.episodeId
    {
      assert a in init + [last] && a != last;
    }
  }

  lemma AsSetGrows(init: seq<Attempt>, last: Attempt, check: Checker)
    requires AcceptedAsSet(init, check) && last.episodeId !in AttemptIds(init) && check(last).Ok?
    ensures AcceptedAsSet(init + [last], check)
  {
    CountsSnoc(init, last);
    assert last !in init;
    assert last !in multiset(init);
  }

  lemma {:induction false} AcceptedIffAsSet(attempts: seq<Attempt>, check: Checker)
    ensures AttemptsAccepted(attempts, check) <==> AcceptedAsSet(attempts, check)
    decreases |attempts|
  {
    if attempts == [] {
    } else {
      var init, last := attempts[..|attempts| - 1], attempts[|attempts| - 1];
      assert attempts == init + [last];
      AcceptedIffAsSet(init, check);
      if AcceptedAsSet(attempts, check) { AsSetShrinks(init, last, check); }
      if AttemptsAccepted(attempts, check) { AsSetGrows(init, last, check); }
    }
  }

  lemma PlansPermute(attempts: seq<Attempt>, others: seq<Attempt>, check: Checker)
    requires multiset(attempts) == multiset(others) && AttemptsAccepted(attempts, check)
    ensures AttemptsAccepted(others, check) && Plans(attempts, check) == Plans(others, check)
  {
    SameCount(attempts, others);
    AcceptedIffAsSet(attempts, check);
    AcceptedIffAsSet(others, check);
    PlansAre(attempts, check);
    PlansAre(others, check);
    var left, right := Plans(attempts, check), Plans(others, check);
    forall id
      ensures id in left <==> id in right
      ensures id in left ==> left[id] == right[id]
    {
      if SomeCompletes(attempts, id, check) {
        var a :| a in attempts && Completes(a, id, check);
        assert a in others;
      }
      if SomeCompletes(others, id, check) {
        var a :| a in others && Completes(a, id, check);
        assert a in attempts;
      }
    }
  }

  lemma RevisionsPermute(attempts: seq<Attempt>, others: seq<Attempt>)
    requires multiset(attempts) == multiset(others)
    ensures Sort(Revisions(attempts), TextLe) == Sort(Revisions(others), TextLe)
  {
    SameCount(attempts, others);
    SameMembers(Revisions(attempts), Revisions(others));
    TextOrders();
    SortPermutes(Revisions(attempts), Revisions(others), TextLe);
  }

  lemma {:induction false} LatestIsLatest(attempts: seq<Attempt>)
    requires attempts != []
    ensures exists a :: a in attempts && a.observedAt == LatestClock(attempts)
    ensures forall a :: a in attempts ==> ClockLe(a.observedAt, LatestClock(attempts))
    decreases |attempts|
  {
    TextOrders();
    var init, last := attempts[..|attempts| - 1], attempts[|attempts| - 1];
    assert attempts == init + [last];
    assert last in attempts;
    if init != [] {
      LatestIsLatest(init);
      var a :| a in init && a.observedAt == LatestClock(init);
      assert a in attempts;
    }
  }

  predicate Dated(attempts: seq<Attempt>) {
    forall a :: a in attempts ==> a.observedAt.instant.Some?
  }

  lemma LatestPermutes(attempts: seq<Attempt>, others: seq<Attempt>)
    requires attempts != [] && multiset(attempts) == multiset(others) && Dated(attempts)
    ensures others != [] && LatestClock(attempts) == LatestClock(others)
  {
    SameCount(attempts, others);
    LatestIsLatest(attempts);
    LatestIsLatest(others);
    TextOrders();
    var a :| a in attempts && a.observedAt == LatestClock(attempts);
    var b :| b in others && b.observedAt == LatestClock(others);
    assert a in others && b in attempts;
  }

  lemma AcceptedDated(attempts: seq<Attempt>, episodes: map<string, Episode>, digest: Digested -> string)
    requires AttemptsAccepted(attempts, CheckerOf(episodes, digest))
    ensures Dated(attempts)
  {
    AcceptedIffAsSet(attempts, CheckerOf(episodes, digest));
    forall a | a in attempts
      ensures a.observedAt.instant.Some?
    {
      assert CheckerOf(episodes, digest)(a).Ok?;
    }
  }

  /** The formed ingest is the same whatever order the attempts ended in, and so is acceptance. */
  lemma OrderIrrelevant(session: Session, policy: Policy, rows: seq<Row>, attempts: seq<Attempt>, others: seq<Attempt>,
                        digest: Digested -> string)
    requires multiset(attempts) == multiset(others)
    ensures |attempts| == |others|
    ensures AttemptsAccepted(attempts, CheckerOf(EpisodeMap(rows), digest)) <==>
            AttemptsAccepted(others, CheckerOf(EpisodeMap(rows), digest))
    ensures Usable(session.sources) != [] && attempts != [] && AttemptsAccepted(attempts, CheckerOf(EpisodeMap(rows), digest)) ==>
              FormedOf(session, policy, rows, attempts, digest) == FormedOf(session, policy, rows, others, digest)
  {
    SameCount(attempts, others);
    var check := CheckerOf(EpisodeMap(rows), digest);
    if AttemptsAccepted(attempts, check) {
      PlansPermute(attempts, others, check);
      AcceptedDated(attempts, EpisodeMap(rows), digest);
      RevisionsPermute(attempts, others);
      if attempts != [] { LatestPermutes(attempts, others); }
    } else if AttemptsAccepted(others, check) {
      PlansPermute(others, attempts, check);
    }
  }

  // ---- what the formed graph guarantees ----

  /** The plans at hand are grounded in the planned episodes of one scope. */
  ghost predicate PlansGrounded(plans: map<string, Plan>, episodes: map<string, Episode>, about: string, digest: Digested -> string, told: set<Digested>) {
    forall id :: id in plans ==> PlanGrounded(plans[id], id, episodes, about, digest, told)
  }

  ghost predicate PlanGrounded(plan: Plan, id: string, episodes: map<string, Episode>, about: string, digest: Digested -> string, told: set<Digested>) {
    id in episodes && GraphGrounded(plan.ingest.graph, about, digest(OfEpisode(episodes[id])), episodes[id].sources, digest, told)
  }

  /** The names the attempts' plans write are digests of values told apart. */
  ghost predicate AttemptsTold(attempts: seq<Attempt>, episodes: map<string, Episode>, digest: Digested -> string, told: set<Digested>) {
    forall a :: a in attempts && a.Completed? && a.episodeId in episodes ==>
      PlanValues(episodes[a.episodeId], a.extracted, a.revision, digest) <= told
  }

  lemma CheckedGrounded(attempts: seq<Attempt>, episodes: map<string, Episode>, about: string, digest: Digested -> string,
                        told: set<Digested>)
    requires TellsApart(digest, told) && AttemptsTold(attempts, episodes, digest, told)
    requires AttemptsAccepted(attempts, CheckerOf(episodes, digest))
    requires forall id :: id in episodes ==> episodes[id].about == about
    ensures PlansGrounded(Plans(attempts, CheckerOf(episodes, digest)), episodes, about, digest, told)
  {
    var check := CheckerOf(episodes, digest);
    PlansAre(attempts, check);
    var plans := Plans(attempts, check);
    forall id | id in plans
      ensures PlanGrounded(plans[id], id, episodes, about, digest, told)
    {
      var a :| a in attempts && Completes(a, id, check);
      assert check(a) == Checked(a, episodes, digest);
      PlanIsGrounded(episodes[id], a.extracted, a.verified, a.revision, a.observedAt, digest, told);
    }
  }

  /** Whatever the digest, every reference the plans make can be translated. */
  lemma CheckedResolves(attempts: seq<Attempt>, episodes: map<string, Episode>, digest: Digested -> string)
    requires AttemptsAccepted(attempts, CheckerOf(episodes, digest))
    ensures var plans := Plans(attempts, CheckerOf(episodes, digest));
            forall id :: id in plans ==> Resolves(plans[id].ingest.graph)
  {
    var check := CheckerOf(episodes, digest);
    PlansAre(attempts, check);
    var plans := Plans(attempts, check);
    forall id | id in plans
      ensures Resolves(plans[id].ingest.graph)
    {
      var a :| a in attempts && Completes(a, id, check);
      assert check(a) == Checked(a, episodes, digest);
      PlanProofHolds(episodes[id], a.extracted, a.verified, a.revision, a.observedAt, digest);
      ProofResolves(plans[id].ingest.graph);
    }
  }

  lemma ProofResolves(g: Graph)
    requires forall r :: r in g.relations ==> RelationGrounded(r, g.entries)
    requires forall p :: p in g.evidence ==> ProofGrounded(p, g.entries)
    ensures Resolves(g)
  {
    forall r | r in g.relations
      ensures NamesOriginal(g.entries, r.target)
    {
      assert RelationGrounded(r, g.entries);
    }
    forall p | p in g.evidence
      ensures NamesOriginal(g.entries, p.source)
    {
      assert ProofGrounded(p, g.entries);
    }
  }

  // An original renamed keeps its source; a derived entry keeps its name.

  lemma {:induction false} TranslationKeeps(entries: seq<Entry>, about: string, from: string, hash: string, sources: seq<Source>,
                                            digest: Digested -> string, told: set<Digested>, e: Entry)
    requires TellsApart(digest, told) && forall x :: x in entries ==> EntryGrounded(x, about, from, sources, digest, told)
    requires e in entries && e.Original?
    ensures Renamed(Translation(entries, about, hash, digest), e.id) == SourceRef(about, hash, e.sourceId, digest)
    decreases |entries|
  {
    var init, last := entries[..|entries| - 1], entries[|entries| - 1];
    assert entries == init + [last];
    assert EntryGrounded(e, about, from, sources, digest, told) && EntryGrounded(last, about, from, sources, digest, told);
    if last.Original? && last.id == e.id {
      SourceRefTells(about, from, from, last.sourceId, e.sourceId, digest, told);
    } else {
      assert e in init;
      assert forall x :: x in init ==> x in entries;
      TranslationKeeps(init, about, from, hash, sources, digest, told, e);
    }
  }

  lemma {:induction false} AdoptKeeps(formed: seq<Entry>, entries: seq<Entry>, episodeId: string, scopeId: string)
    ensures formed <= Adopt(formed, entries, episodeId, scopeId)
    ensures forall i :: |formed| <= i < |Adopt(formed, entries, episodeId, scopeId)| ==>
              Adopt(formed, entries, episodeId, scopeId)[i].Derived?
    ensures forall id :: NamesDerived(entries, id) ==> NamesDerived(Adopt(formed, entries, episodeId, scopeId), id)
    decreases |entries|
  {
    if entries == [] {
    } else {
      var init, last := entries[..|entries| - 1], entries[|entries| - 1];
      assert entries == init + [last];
      AdoptKeeps(formed, init, episodeId, scopeId);
      var before, after := Adopt(formed, init, episodeId, scopeId), Adopt(formed, entries, episodeId, scopeId);
      forall id | NamesDerived(entries, id)
        ensures NamesDerived(after, id)
      {
        if NamesDerived(init, id) {
          var e :| e in before && e.Derived? && e.id == id;
          assert e in after;
        } else {
          assert last.Derived? && last.id == id;
          assert after[|before|] in after;
        }
      }
    }
  }

  predicate Numbered(entries: seq<Entry>) {
    forall i :: 0 <= i < |entries| ==> entries[i].at.sequence == i + 1
  }

  lemma {:induction false} AdoptNumbers(formed: seq<Entry>, entries: seq<Entry>, episodeId: string, scopeId: string)
    requires Numbered(formed)
    ensures Numbered(Adopt(formed, entries, episodeId, scopeId))
    decreases |entries|
  {
    if entries == [] {
    } else {
      AdoptNumbers(formed, entries[..|entries| - 1], episodeId, scopeId);
    }
  }

  /** Baseline first, then derived entries only; numbered from one to the last. */
  lemma {:induction false} BaselineIsPrefix(rows: seq<Row>, plans: map<string, Plan>, base: seq<Entry>, about: string, hash: string,
                                            scopeId: string, digest: Digested -> string)
    requires Numbered(base)
    ensures var entries := Assembled(rows, plans, base, about, hash, scopeId, digest).entries;
            && base <= entries && Numbered(entries)
            && forall i :: |base| <= i < |entries| ==> entries[i].Derived?
    decreases |rows|
  {
    if rows == [] {
    } else {
      var init, id := rows[..|rows| - 1], rows[|rows| - 1].episode.episodeId;
      BaselineIsPrefix(init, plans, base, about, hash, scopeId, digest);
      if id in plans {
        var formed := Assembled(init, plans, base, about, hash, scopeId, digest).entries;
        AdoptKeeps(formed, plans[id].ingest.graph.entries, id, scopeId);
        AdoptNumbers(formed, plans[id].ingest.graph.entries, id, scopeId);
      }
    }
  }

  ghost predicate AllGrounded(g: Graph) {
    && (forall r :: r in g.relations ==> RelationGrounded(r, g.entries))
    && (forall p :: p in g.evidence ==> ProofGrounded(p, g.entries))
  }

  lemma GroundedGrows(g: Graph, entries: seq<Entry>)
    requires AllGrounded(g) && g.entries <= entries
    ensures AllGrounded(g.(entries := entries))
  {
    assert forall e :: e in g.entries ==> e in entries;
    forall r | r in g.relations
      ensures RelationGrounded(r, entries)
    {
      assert RelationGrounded(r, g.entries);
    }
    forall p | p in g.evidence
      ensures ProofGrounded(p, entries)
    {
      assert ProofGrounded(p, g.entries);
    }
  }

  /** The session's own originals cover what an episode may cite. */
  ghost predicate Holds(base: seq<Entry>, about: string, hash: string, sources: seq<Source>, digest: Digested -> string) {
    forall s :: s in sources ==> HoldsSource(base, about, hash, s, digest)
  }

  ghost predicate HoldsSource(base: seq<Entry>, about: string, hash: string, s: Source, digest: Digested -> string) {
    exists e :: e in base && e.Original? && e.id == SourceRef(about, hash, s.id, digest) && e.sourceId == s.id && e.text == s.text
  }

  /** One plan's proof, moved to the session's names, is still proof. */
  lemma MovedGrounded(graph: Graph, about: string, from: string, hash: string, sources: seq<Source>, formed: seq<Entry>,
                      digest: Digested -> string, told: set<Digested>)
    requires TellsApart(digest, told) && GraphGrounded(graph, about, from, sources, digest, told)
    requires Holds(formed, about, hash, sources, digest)
    requires forall id :: NamesDerived(graph.entries, id) ==> NamesDerived(formed, id)
    ensures var translated := Translation(graph.entries, about, hash, digest);
            AllGrounded(Graph(formed, MovedRelations(graph.relations, translated), MovedEvidence(graph.evidence, translated)))
  {
    var translated := Translation(graph.entries, about, hash, digest);
    var relations, evidence := MovedRelations(graph.relations, translated), MovedEvidence(graph.evidence, translated);
    forall r | r in relations
      ensures RelationGrounded(r, formed)
    {
      var i :| 0 <= i < |relations| && relations[i] == r;
      assert RelationGrounded(graph.relations[i], graph.entries);
      var e :| e in graph.entries && e.Original? && e.id == graph.relations[i].target;
      OriginalMoved(graph.entries, about, from, hash, sources, formed, digest, told, e);
    }
    forall p | p in evidence
      ensures ProofGrounded(p, formed)
    {
      var i :| 0 <= i < |evidence| && evidence[i] == p;
      var q := graph.evidence[i];
      assert ProofGrounded(q, graph.entries);
      var e :| e in graph.entries && e.Original? && e.id == q.source && e.sourceId == q.sourceId && Within(q.text, e.text);
      OriginalMoved(graph.entries, about, from, hash, sources, formed, digest, told, e);
    }
  }

  lemma OriginalMoved(entries: seq<Entry>, about: string, from: string, hash: string, sources: seq<Source>, formed: seq<Entry>,
                      digest: Digested -> string, told: set<Digested>, e: Entry)
    requires TellsApart(digest, told) && forall x :: x in entries ==> EntryGrounded(x, about, from, sources, digest, told)
    requires e in entries && e.Original? && Holds(formed, about, hash, sources, digest)
    ensures exists f :: f in formed && f.Original? && f.sourceId == e.sourceId && f.text == e.text
                        && f.id == Renamed(Translation(entries, about, hash, digest), e.id)
  {
    TranslationKeeps(entries, about, from, hash, sources, digest, told, e);
    assert EntryGrounded(e, about, from, sources, digest, told);
    var s :| s in sources && e.id == SourceRef(about, from, s.id, digest) && e.text == s.text && e.Original? && e.sourceId == s.id;
    assert HoldsSource(formed, about, hash, s, digest);
  }

  lemma HoldsMore(base: seq<Entry>, more: seq<Entry>, about: string, hash: string, sources: seq<Source>, digest: Digested -> string)
    requires Holds(base, about, hash, sources, digest) && base <= more
    ensures Holds(more, about, hash, sources, digest)
  {
    forall s | s in sources
      ensures HoldsSource(more, about, hash, s, digest)
    {
      assert HoldsSource(base, about, hash, s, digest);
      var e :| e in base && e.Original? && e.id == SourceRef(about, hash, s.id, digest) && e.sourceId == s.id && e.text == s.text;
      assert e in more;
    }
  }

  ghost predicate HoldsAll(base: seq<Entry>, about: string, hash: string, episodes: map<string, Episode>, digest: Digested -> string) {
    forall id :: id in episodes ==> Holds(base, about, hash, episodes[id].sources, digest)
  }

  /** Every relation and every quote of the assembled graph ends at entries that are there, and
      every quote is literal in the session's original it names. */
  lemma {:induction false} EndpointsArePresent(
      rows: seq<Row>, plans: map<string, Plan>, base: seq<Entry>, about: string, hash: string, scopeId: string,
      episodes: map<string, Episode>, digest: Digested -> string, told: set<Digested>)
    requires TellsApart(digest, told) && PlansGrounded(plans, episodes, about, digest, told)
    requires HoldsAll(base, about, hash, episodes, digest)
    requires Numbered(base)
    ensures AllGrounded(Assembled(rows, plans, base, about, hash, scopeId, digest))
    decreases |rows|
  {
    if rows == [] {
    } else {
      var init, id := rows[..|rows| - 1], rows[|rows| - 1].episode.episodeId;
      EndpointsArePresent(init, plans, base, about, hash, scopeId, episodes, digest, told);
      if id in plans {
        var g, graph := Assembled(init, plans, base, about, hash, scopeId, digest), plans[id].ingest.graph;
        var formed := Adopt(g.entries, graph.entries, id, scopeId);
        assert PlanGrounded(plans[id], id, episodes, about, digest, told);
        BaselineIsPrefix(init, plans, base, about, hash, scopeId, digest);
        AdoptKeeps(g.entries, graph.entries, id, scopeId);
        GroundedGrows(g, formed);
        HoldsMore(base, formed, about, hash, episodes[id].sources, digest);
        MovedGrounded(graph, about, digest(OfEpisode(episodes[id])), hash, episodes[id].sources, formed, digest, told);
      }
    }
  }

  // ---- no name is used twice ----

  /** Where an assembled entry's name comes from. */
  ghost predicate FromBase(e: Entry, about: string, hash: string, digest: Digested -> string) {
    exists id :: e.id == SourceRef(about, hash, id, digest)
  }

  ghost predicate FromEpisodes(e: Entry, about: string, rows: seq<Row>, digest: Digested -> string, told: set<Digested>) {
    exists row :: row in rows && NamedAsMemory(e, about, digest(OfEpisode(row.episode)), digest, told)
  }

  ghost predicate NamesComeFrom(entries: seq<Entry>, about: string, hash: string, rows: seq<Row>, digest: Digested -> string, told: set<Digested>) {
    forall e :: e in entries ==> FromBase(e, about, hash, digest) || FromEpisodes(e, about, rows, digest, told)
  }

  predicate RowIdsDistinct(rows: seq<Row>) {
    forall i, j :: 0 <= i < j < |rows| ==> rows[i].episode.episodeId != rows[j].episode.episodeId
  }

  ghost predicate EpisodesTold(rows: seq<Row>, told: set<Digested>) {
    forall row :: row in rows ==> OfEpisode(row.episode) in told
  }

  /** A memory of one episode is named apart from everything assembled before that episode. */
  lemma NameIsNew(formed: seq<Entry>, about: string, hash: string, rows: seq<Row>, row: Row, digest: Digested -> string, told: set<Digested>, e: Entry, x: Entry)
    requires TellsApart(digest, told) && NamesComeFrom(formed, about, hash, rows, digest, told)
    requires forall r :: r in rows ==> r.episode.episodeId != row.episode.episodeId
    requires EpisodesTold(rows, told) && OfEpisode(row.episode) in told
    requires NamedAsMemory(e, about, digest(OfEpisode(row.episode)), digest, told) && x in formed
    ensures x.id != e.id
  {
    if x.id == e.id {
      var id :| OfMemoryRef(e.sourceHash, VERSION, e.revision, id) in told && e.id == MemoryRef(about, e.sourceHash, e.revision, id, digest);
      if FromBase(x, about, hash, digest) {
        var source :| x.id == SourceRef(about, hash, source, digest);
        SourceIsNotMemory(about, hash, e.sourceHash, e.revision, source, id, digest);
      } else {
        var r :| r in rows && NamedAsMemory(x, about, digest(OfEpisode(r.episode)), digest, told);
        var other :| OfMemoryRef(x.sourceHash, VERSION, x.revision, other) in told
                     && x.id == MemoryRef(about, x.sourceHash, x.revision, other, digest);
        MemoryRefTells(about, x.sourceHash, e.sourceHash, x.revision, e.revision, other, id, digest, told);
        DigestTells(digest, told, OfEpisode(r.episode), OfEpisode(row.episode));
      }
    }
  }

  /** Adopted so far: distinct names, each from before or one of this episode's. */
  ghost predicate AdoptedApart(all: seq<Entry>, formed: seq<Entry>, entries: seq<Entry>, about: string, row: Row, digest: Digested -> string, told: set<Digested>) {
    && IdsDistinct(all)
    && forall x :: x in all ==> x in formed || (NamedAsMemory(x, about, digest(OfEpisode(row.episode)), digest, told) && HasId(entries, x.id))
  }

  lemma AdoptOneApart(all: seq<Entry>, formed: seq<Entry>, init: seq<Entry>, last: Entry, about: string, hash: string, rows: seq<Row>, row: Row,
                      digest: Digested -> string, told: set<Digested>, scopeId: string)
    requires TellsApart(digest, told) && NamesComeFrom(formed, about, hash, rows, digest, told)
    requires forall r :: r in rows ==> r.episode.episodeId != row.episode.episodeId
    requires EpisodesTold(rows, told) && OfEpisode(row.episode) in told
    requires AdoptedApart(all, formed, init, about, row, digest, told) && last.Derived?
    requires NamedAsMemory(last, about, digest(OfEpisode(row.episode)), digest, told) && !HasId(init, last.id)
    ensures AdoptedApart(all + [Adopted(last, row.episode.episodeId, scopeId, |all| + 1)], formed, init + [last], about, row, digest, told)
  {
    var adopted := Adopted(last, row.episode.episodeId, scopeId, |all| + 1);
    assert NamedAsMemory(adopted, about, digest(OfEpisode(row.episode)), digest, told);
    forall x | x in all
      ensures x.id != adopted.id
      ensures x in formed || (NamedAsMemory(x, about, digest(OfEpisode(row.episode)), digest, told) && HasId(init + [last], x.id))
    {
      if x in formed {
        NameIsNew(formed, about, hash, rows, row, digest, told, adopted, x);
      } else {
        HasIdMore(init, last, x.id);
      }
    }
    assert (init + [last])[|init|] == last;
    assert HasId(init + [last], adopted.id);
  }

  lemma HasIdMore(init: seq<Entry>, last: Entry, id: string)
    requires HasId(init, id)
    ensures HasId(init + [last], id)
  {
    var i :| 0 <= i < |init| && init[i].id == id;
    assert (init + [last])[i].id == id;
  }

  lemma LastIsNew(init: seq<Entry>, last: Entry)
    requires IdsDistinct(init + [last])
    ensures IdsDistinct(init) && !HasId(init, last.id)
  {
    var all := init + [last];
    assert all[|init|] == last && forall i :: 0 <= i < |init| ==> all[i] == init[i];
  }

  lemma {:induction false} AdoptDistinct(formed: seq<Entry>, entries: seq<Entry>, about: string, hash: string, rows: seq<Row>, row: Row,
                                         digest: Digested -> string, told: set<Digested>, scopeId: string)
    requires TellsApart(digest, told) && IdsDistinct(formed) && NamesComeFrom(formed, about, hash, rows, digest, told)
    requires forall r :: r in rows ==> r.episode.episodeId != row.episode.episodeId
    requires EpisodesTold(rows, told) && OfEpisode(row.episode) in told && IdsDistinct(entries)
    requires forall e :: e in entries && e.Derived? ==> NamedAsMemory(e, about, digest(OfEpisode(row.episode)), digest, told)
    ensures AdoptedApart(Adopt(formed, entries, row.episode.episodeId, scopeId), formed, entries, about, row, digest, told)
    decreases |entries|
  {
    if entries == [] {
    } else {
      var init, last := entries[..|entries| - 1], entries[|entries| - 1];
      assert entries == init + [last];
      LastIsNew(init, last);
      AdoptDistinct(formed, init, about, hash, rows, row, digest, told, scopeId);
      var before := Adopt(formed, init, row.episode.episodeId, scopeId);
      if last.Derived? {
        AdoptOneApart(before, formed, init, last, about, hash, rows, row, digest, told, scopeId);
      } else {
        forall x | x in before && x !in formed
          ensures HasId(entries, x.id)
        {
          HasIdMore(init, last, x.id);
        }
      }
    }
  }

  predicate HasId(entries: seq<Entry>, id: string) {
    exists i :: 0 <= i < |entries| && entries[i].id == id
  }

  /** No two entries of the assembled graph share a name. */
  lemma {:induction false} EntriesAreDistinct(
      rows: seq<Row>, plans: map<string, Plan>, base: seq<Entry>, about: string, hash: string, scopeId: string,
      episodes: map<string, Episode>, digest: Digested -> string, told: set<Digested>)
    requires TellsApart(digest, told) && PlansGrounded(plans, episodes, about, digest, told)
    requires RowIdsDistinct(rows) && EpisodesTold(rows, told)
    requires forall row :: row in rows ==> row.episode.episodeId in episodes && episodes[row.episode.episodeId] == row.episode
    requires IdsDistinct(base) && forall e :: e in base ==> FromBase(e, about, hash, digest)
    ensures var entries := Assembled(rows, plans, base, about, hash, scopeId, digest).entries;
            IdsDistinct(entries) && NamesComeFrom(entries, about, hash, rows, digest, told)
    decreases |rows|
  {
    if rows == [] {
    } else {
      var init, row := rows[..|rows| - 1], rows[|rows| - 1];
      var id := row.episode.episodeId;
      assert rows == init + [row] && forall i :: 0 <= i < |init| ==> init[i] == rows[i];
      EntriesAreDistinct(init, plans, base, about, hash, scopeId, episodes, digest, told);
      var formed := Assembled(init, plans, base, about, hash, scopeId, digest).entries;
      if id in plans {
        var graph := plans[id].ingest.graph;
        assert PlanGrounded(plans[id], id, episodes, about, digest, told);
        forall e | e in graph.entries && e.Derived?
          ensures NamedAsMemory(e, about, digest(OfEpisode(row.episode)), digest, told)
        {
          assert EntryGrounded(e, about, digest(OfEpisode(row.episode)), row.episode.sources, digest, told);
        }
        AdoptDistinct(formed, graph.entries, about, hash, init, row, digest, told, scopeId);
      }
      NamesComeMore(formed, about, hash, init, row, digest, told);
    }
  }

  lemma NamesComeMore(entries: seq<Entry>, about: string, hash: string, rows: seq<Row>, row: Row, digest: Digested -> string, told: set<Digested>)
    requires NamesComeFrom(entries, about, hash, rows, digest, told)
    ensures NamesComeFrom(entries, about, hash, rows + [row], digest, told)
  {
    forall e | e in entries && FromEpisodes(e, about, rows, digest, told)
      ensures FromEpisodes(e, about, rows + [row], digest, told)
    {
      var r :| r in rows && NamedAsMemory(e, about, digest(OfEpisode(r.episode)), digest, told);
      assert r in rows + [row];
    }
  }

  // ---- the session ----

  /** The planned episodes are named apart. There are no more of them than usable turns. */
  ghost predicate SegmentsTold(session: Session, policy: Policy, digest: Digested -> string)
    requires SixtyFourDigits(digest)
  {
    forall i, j :: 0 <= i < j < |Usable(session.sources)| ==>
      SegmentId(session, policy, i, digest) != SegmentId(session, policy, j, digest)
  }

  lemma {:induction false} CutsCount(cuts: seq<nat>, k: nat)
    requires k < |cuts| && forall i :: 0 <= i < |cuts| - 1 ==> cuts[i] < cuts[i + 1]
    ensures k <= cuts[k]
  {
    if k == 0 {
    } else {
      CutsCount(cuts, k - 1);
    }
  }

  lemma RowsAreDistinct(rows: seq<Row>, cuts: seq<nat>, session: Session, policy: Policy, digest: Digested -> string)
    requires SixtyFourDigits(digest) && SegmentsTold(session, policy, digest)
    requires RowsOk(rows, cuts, session, Usable(session.sources), policy, digest) && Covers(cuts, |Usable(session.sources)|)
    ensures RowIdsDistinct(rows)
  {
    CutsCount(cuts, |rows|);
    forall i, j | 0 <= i < j < |rows|
      ensures rows[i].episode.episodeId != rows[j].episode.episodeId
    {
      assert RowOk(rows[i], i, cuts[i], cuts[i + 1], session, Usable(session.sources), policy, digest);
      assert RowOk(rows[j], j, cuts[j], cuts[j + 1], session, Usable(session.sources), policy, digest);
    }
  }

  predicate MapHas(episodes: map<string, Episode>, rows: seq<Row>) {
    forall i :: 0 <= i < |rows| ==> rows[i].episode.episodeId in episodes && episodes[rows[i].episode.episodeId] == rows[i].episode
  }

  lemma MapHasMore(episodes: map<string, Episode>, init: seq<Row>, last: Row)
    requires MapHas(episodes, init) && last.episode.episodeId !in episodes
    ensures MapHas(episodes[last.episode.episodeId := last.episode], init + [last])
  {
    var more, rows := episodes[last.episode.episodeId := last.episode], init + [last];
    forall i | 0 <= i < |rows|
      ensures rows[i].episode.episodeId in more && more[rows[i].episode.episodeId] == rows[i].episode
    {
      if i < |init| { assert rows[i] == init[i]; }
    }
  }

  lemma {:induction false} EpisodeMapHas(rows: seq<Row>)
    requires RowIdsDistinct(rows)
    ensures MapHas(EpisodeMap(rows), rows) && |EpisodeMap(rows)| == |rows|
    decreases |rows|
  {
    if rows == [] {
    } else {
      var init, last := rows[..|rows| - 1], rows[|rows| - 1];
      assert rows == init + [last];
      NewId(init, last);
      EpisodeMapHas(init);
      MapHasMore(EpisodeMap(init), init, last);
    }
  }

  lemma NewId(init: seq<Row>, last: Row)
    requires RowIdsDistinct(init + [last])
    ensures RowIdsDistinct(init) && last.episode.episodeId !in EpisodeMap(init)
  {
    var rows := init + [last];
    assert forall i :: 0 <= i < |init| ==> rows[i] == init[i];
    assert rows[|init|] == last;
  }

  /** The episodes speak of the session's scope and quote only its usable turns. */
  lemma EpisodesOfSession(rows: seq<Row>, cuts: seq<nat>, session: Session, policy: Policy, digest: Digested -> string)
    requires SixtyFourDigits(digest) && RowsOk(rows, cuts, session, Usable(session.sources), policy, digest)
    ensures forall id :: id in EpisodeMap(rows) ==> EpisodeMap(rows)[id].about == session.about
    ensures forall id, s :: id in EpisodeMap(rows) && s in EpisodeMap(rows)[id].sources ==> s in Usable(session.sources)
  {
    var usable := Usable(session.sources);
    forall row | row in rows
      ensures row.episode.about == session.about && forall s :: s in row.episode.sources ==> s in usable
    {
      var k :| 0 <= k < |rows| && rows[k] == row;
      assert RowOk(rows[k], k, cuts[k], cuts[k + 1], session, usable, policy, digest);
    }
  }

  /** The session's originals, under the session's own names. */
  function SessionOriginals(session: Session, digest: Digested -> string): seq<Entry> {
    var hash := digest(OfSession(session));
    Originals(Usable(session.sources), session.about, hash, ScopeOf(hash), digest)
  }

  lemma OriginalsDistinct(session: Session, digest: Digested -> string, told: set<Digested>)
    requires TellsApart(digest, told) && TurnsOk(session.sources)
    requires forall s :: s in Usable(session.sources) ==> OfSourceRef(digest(OfSession(session)), s.id) in told
    ensures IdsDistinct(SessionOriginals(session, digest))
  {
    var base, hash, usable := SessionOriginals(session, digest), digest(OfSession(session)), Usable(session.sources);
    UsableOk(session.sources);
    forall i, j | 0 <= i < j < |base|
      ensures base[i].id != base[j].id
    {
      assert usable[i] in usable && usable[j] in usable;
      if base[i].id == base[j].id { SourceRefTells(session.about, hash, hash, usable[i].id, usable[j].id, digest, told); }
    }
  }

  lemma OriginalsNamed(session: Session, digest: Digested -> string)
    ensures forall e :: e in SessionOriginals(session, digest) ==> FromBase(e, session.about, digest(OfSession(session)), digest)
    ensures Numbered(SessionOriginals(session, digest))
  {
    var base, hash, usable := SessionOriginals(session, digest), digest(OfSession(session)), Usable(session.sources);
    forall e | e in base
      ensures FromBase(e, session.about, hash, digest)
    {
      var i :| 0 <= i < |base| && base[i] == e;
      assert e.id == SourceRef(session.about, hash, usable[i].id, digest);
    }
  }

  lemma OriginalsHold(session: Session, episodes: map<string, Episode>, digest: Digested -> string)
    requires forall id, s :: id in episodes && s in episodes[id].sources ==> s in Usable(session.sources)
    ensures HoldsAll(SessionOriginals(session, digest), session.about, digest(OfSession(session)), episodes, digest)
  {
    var base, hash, usable := SessionOriginals(session, digest), digest(OfSession(session)), Usable(session.sources);
    forall id, s | id in episodes && s in episodes[id].sources
      ensures HoldsSource(base, session.about, hash, s, digest)
    {
      var i :| 0 <= i < |usable| && usable[i] == s;
      assert base[i] in base;
    }
  }

  lemma SomeEpisode(rows: seq<Row>, cuts: seq<nat>, n: nat)
    requires |cuts| == |rows| + 1 && Covers(cuts, n) && n > 0
    ensures rows != []
  {
  }

  /** A plan of episodes that `segment_session` makes of an acceptable session. */
  ghost predicate Planned(session: Session, policy: Policy, rows: seq<Row>, cuts: seq<nat>, digest: Digested -> string) {
    && SixtyFourDigits(digest) && SegmentsTold(session, policy, digest) && SessionOk(session, policy.targetChars, policy.maxSources)
    && RowsOk(rows, cuts, session, Usable(session.sources), policy, digest) && Covers(cuts, |Usable(session.sources)|)
  }

  /** Every value whose digest names something in a formed session. */
  function ValuesAtHand(session: Session, rows: seq<Row>, attempts: seq<Attempt>, digest: Digested -> string): set<Digested> {
    (set row | row in rows :: OfEpisode(row.episode))
    + (set s | s in Usable(session.sources) :: OfSourceRef(digest(OfSession(session)), s.id))
    + (set row, s | row in rows && s in row.episode.sources :: OfSourceRef(digest(OfEpisode(row.episode)), s.id))
    + (set row, a, m | row in rows && a in attempts && a.Completed? && m in a.extracted ::
         OfMemoryRef(digest(OfEpisode(row.episode)), VERSION, a.revision, Fingerprint(m, digest)))
  }

  lemma AtHandTold(session: Session, rows: seq<Row>, attempts: seq<Attempt>, digest: Digested -> string)
    ensures var told := ValuesAtHand(session, rows, attempts, digest);
            && EpisodesTold(rows, told) && AttemptsTold(attempts, EpisodeMap(rows), digest, told)
            && forall s :: s in Usable(session.sources) ==> OfSourceRef(digest(OfSession(session)), s.id) in told
  {
    var told, episodes := ValuesAtHand(session, rows, attempts, digest), EpisodeMap(rows);
    forall a, x | a in attempts && a.Completed? && a.episodeId in episodes
                  && x in PlanValues(episodes[a.episodeId], a.extracted, a.revision, digest)
      ensures x in told
    {
      var row :| row in rows && row.episode == episodes[a.episodeId];
      if x.OfSourceRef? {
        var s :| s in row.episode.sources && x == OfSourceRef(digest(OfEpisode(row.episode)), s.id);
      } else {
        var m :| m in a.extracted && x == OfMemoryRef(digest(OfEpisode(row.episode)), VERSION, a.revision, Fingerprint(m, digest));
      }
    }
  }

  lemma PlansOfSession(session: Session, policy: Policy, rows: seq<Row>, cuts: seq<nat>, attempts: seq<Attempt>, digest: Digested -> string)
    requires Planned(session, policy, rows, cuts, digest)
    requires TellsApart(digest, ValuesAtHand(session, rows, attempts, digest))
    requires AttemptsAccepted(attempts, CheckerOf(EpisodeMap(rows), digest))
    ensures PlansGrounded(Plans(attempts, CheckerOf(EpisodeMap(rows), digest)), EpisodeMap(rows), session.about, digest,
                          ValuesAtHand(session, rows, attempts, digest))
  {
    EpisodesOfSession(rows, cuts, session, policy, digest);
    AtHandTold(session, rows, attempts, digest);
    CheckedGrounded(attempts, EpisodeMap(rows), session.about, digest, ValuesAtHand(session, rows, attempts, digest));
  }

  /** What a formed session promises: every usable turn is there exactly once, first and in order,
      whatever the episodes overlap; derived memories follow, numbered on; no name is used twice;
      and every relation and quote ends at what is there, the quotes literally. */
  lemma FormedIsFaithful(session: Session, policy: Policy, rows: seq<Row>, cuts: seq<nat>, attempts: seq<Attempt>, digest: Digested -> string)
    requires Planned(session, policy, rows, cuts, digest)
    requires TellsApart(digest, ValuesAtHand(session, rows, attempts, digest))
    requires Usable(session.sources) != [] && attempts != []
    requires AttemptsAccepted(attempts, CheckerOf(EpisodeMap(rows), digest))
    ensures var base := BaselineOf(session, digest).graph.entries;
            var graph := FormedOf(session, policy, rows, attempts, digest).graph;
            && base == SessionOriginals(session, digest) && base <= graph.entries
            && (forall i :: |base| <= i < |graph.entries| ==> graph.entries[i].Derived?)
            && Numbered(graph.entries) && IdsDistinct(graph.entries) && AllGrounded(graph)
  {
    var told := ValuesAtHand(session, rows, attempts, digest);
    var episodes, hash := EpisodeMap(rows), digest(OfSession(session));
    var plans, base := Plans(attempts, CheckerOf(episodes, digest)), SessionOriginals(session, digest);
    AtHandTold(session, rows, attempts, digest);
    PlansOfSession(session, policy, rows, cuts, attempts, digest);
    EpisodesOfSession(rows, cuts, session, policy, digest);
    OriginalsHold(session, episodes, digest);
    OriginalsDistinct(session, digest, told);
    OriginalsNamed(session, digest);
    RowsAreDistinct(rows, cuts, session, policy, digest);
    EpisodeMapHas(rows);
    BaselineIsPrefix(rows, plans, base, session.about, hash, ScopeOf(hash), digest);
    EndpointsArePresent(rows, plans, base, session.about, hash, ScopeOf(hash), episodes, digest, told);
    EntriesAreDistinct(rows, plans, base, session.about, hash, ScopeOf(hash), episodes, digest, told);
  }

  function CompiledOf(session: Session, policy: Policy, rows: seq<Row>, attempts: seq<Attempt>, digest: Digested -> string): Compiled
    requires Usable(session.sources) != [] ==> attempts != []
  {
    var results := Outcomes(attempts, CheckerOf(EpisodeMap(rows), digest));
    var blank := BlankIds(session.sources);
    if Usable(session.sources) == [] then Compiled(results, policy, blank, None, None, EmptySession)
    else Compiled(results, policy, blank, Some(BaselineOf(session, digest)),
                  Some(FormedOf(session, policy, rows, attempts, digest)), if AnyFailed(results) then Partial else AllCompleted)
  }

  /** `compile_session`: accepted exactly when the session is, and one acceptable attempt is given
      for each planned episode. */
  method CompileSession(session: Session, attempts: seq<Attempt>, target: nat, maxSources: nat, overlap: bool, digest: Digested -> string)
    returns (r: Result<Compiled, Refusal>, ghost rows: seq<Row>, ghost cuts: seq<nat>)
    requires SixtyFourDigits(digest) && SegmentsTold(session, Policy(target, maxSources, overlap), digest)
    ensures SessionOk(session, target, maxSources) ==> Planned(session, Policy(target, maxSources, overlap), rows, cuts, digest)
    ensures r.Ok? ==> SessionOk(session, target, maxSources)
    ensures SessionOk(session, target, maxSources) ==>
              (r.Ok? <==> |attempts| == |rows| && AttemptsAccepted(attempts, CheckerOf(EpisodeMap(rows), digest)))
    ensures r.Ok? ==> (Usable(session.sources) != [] ==> attempts != [])
                      && r.value == CompiledOf(session, Policy(target, maxSources, overlap), rows, attempts, digest)
  {
    var segmented;
    segmented, cuts := SegmentSession(session, target, maxSources, overlap, digest);
    rows := [];
    if segmented.Err? {
      return Err(ValueError), rows, cuts;
    }
    var planned := segmented.value.episodes;
    rows := planned;
    var policy := Policy(target, maxSources, overlap);
    RowsAreDistinct(rows, cuts, session, policy, digest);
    EpisodeMapHas(rows);
    var episodes := EpisodeMap(planned);
    if |attempts| != |episodes| {
      return Err(ValueError), rows, cuts;
    }
    CheckerChecks(episodes, digest);
    var ok, gathered := Collect(attempts, episodes, digest, CheckerOf(episodes, digest));
    var plans, results, revisions := gathered.plans, gathered.results, gathered.revisions;
    if !ok {
      return Err(ValueError), rows, cuts;
    }
    var nonblank := Usable(session.sources);
    if nonblank == [] {
      return Ok(Compiled(results, policy, segmented.value.excludedBlankSourceIds, None, None, EmptySession)), rows, cuts;
    }
    SomeEpisode(rows, cuts, |nonblank|);
    CheckedResolves(attempts, episodes, digest);
    var formed := Form(session, policy, planned, attempts, plans, revisions, digest);
    return Ok(Compiled(results, policy, segmented.value.excludedBlankSourceIds, Some(BaselineOf(session, digest)), Some(formed),
                       if AnyFailed(results) then Partial else AllCompleted)), rows, cuts;
  }

  /** The formed variant: the baseline's originals, then the plans, under its own key and clock. */
  method Form(session: Session, policy: Policy, rows: seq<Row>, attempts: seq<Attempt>, plans: map<string, Plan>,
              revisions: seq<string>, digest: Digested -> string)
    returns (formed: Ingest)
    requires Usable(session.sources) != [] && attempts != []
    requires plans == Plans(attempts, CheckerOf(EpisodeMap(rows), digest)) && revisions == Revisions(attempts)
    requires forall id :: id in plans ==> Resolves(plans[id].ingest.graph)
    ensures formed == FormedOf(session, policy, rows, attempts, digest)
  {
    var hash := digest(OfSession(session));
    var entries := WriteOriginals(Usable(session.sources), session.about, hash, ScopeOf(hash), digest);
    var graph := Assemble(rows, plans, entries, session.about, hash, ScopeOf(hash), digest);
    formed := Ingest(session.about, "formation-session:" + digest(OfFormed(hash, policy, VERSION, Sort(revisions, TextLe))),
                     LatestClock(attempts), ScopeOf(hash), graph);
  }
}
