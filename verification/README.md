# KMP verification

A Dafny model of the parts of KMP where being almost right is not enough: the guarded write that keeps a store and its
committed bundle one history, the compare-and-append on JetStream, the formation and entity pipeline, and the exact
algorithms of its scripts. Every statement below is proved for all inputs, all runs or all reachable states.

`dafny verify dfyconfig.toml` checks the whole project.

## What is modelled

- **The commit-native write protocol** (`Bundles`, `CommittedTail`, `SameHistory`, `WriteProtocol`, `CommitBundle`).
  `WriteProtocol` is a state machine: one store, one committed file, any number of processes, and steps for locking,
  proving, marking, appending, publishing and clearing, with a crash, a dropped guard, a failure, a loss of power or a
  change by somebody else possible at every step. `CommitBundle` holds the same operations as methods of classes, each
  proved to be a run of that machine. The file's directory entry and the markers are tracked as visible and as durable.
- **The JetStream append** (`JetStream`, `NatsAppend`, `NatsStore`). Clients and server exchange messages one step at a
  time; requests and acknowledgements can be lost and clients can crash. The proof exhibits a linearization.
- **Formation** (`Contracts`, `Segment`, `Planner`, `SessionPlan`) and **entities** (`Entities`, `EntityGraph`,
  `Expand`). The loops of the scripts are loops here, proved against functions whose properties are then proved.
- **The scripts' algorithms**: LCOV text (`Text`, `Lcov`, `LcovMerge`), coverage floors (`Ratchet`, `FloorsFile`), gate
  planning (`GatePlan`, `GateRoutes`), the `.kmpb` table (`Kmpb`), rank fusion, BM25 and dense ranking (`Ranking`,
  `Retrieval`).
- **Bundle files** (`BundleFile`). Both file writers as filesystem steps of any number of concurrent calls, with the
  Windows replacement, torn writes, crashes and losses of power.

`Prelude` and `Ordering` hold what the modules share: results, options, dictionary order and a stable sort.

## Findings

- A write that begins on the remembered tail skips the full check. The two agree on the history, but the full check also
  verifies the bundle, and the fast publish never does: the fast answer implies the slow one exactly when the stream is
  provable (contiguous cards, newest event later than the epoch millisecond). `SameHistory.HoldsWithoutProof` is a
  concrete stream on which the fast check passes and the full one refuses.
- Between a publish's last look at the committed file and its rename, a rewrite by somebody else is replaced unseen
  (`WriteProtocol.RewriteInsidePublishIsLost`). The theorems that need it assume no such rewrite, and say so.
- Between the rename and the look at the new file's stamp, a rewrite by somebody else is taken for this process's own:
  the remembered tail then passes the tail check on the other content (`WriteProtocol.RewriteBeforeRememberIsTrusted`).
- Two markers can exist only after a loss of power, when a removal that was not made durable comes back
  (`WriteProtocol.TwoMarkersAfterPowerLoss`); `WriteProtocol.SecondMarkerIff` says exactly where one can.
- An event subject does not always determine its root and role (`JetStream.DottedRolesCollide`). A set of roles is safe
  exactly when none of them ends in a dot and another of them (`JetStream.RolesSafeIff`).
- The inspection budget of the identity expansion counts answers, not calls. The calls stay within it exactly when those
  that raised a caught error fit into what the answers left of it: always for a reader that never raises, and for one
  that always raises exactly when there are no more known seeds than the budget (`Expand.Expand`,
  `Expand.RaisedCallsEscapeBudget`).
- A mention's source link is matched by its target and need not start at that mention
  (`Expand.LinkMayStartElsewhere`).
- The floor of a crate called `crate`, or of one whose name starts like a comment, is written and never read again
  (`FloorsFile.FloorsReadBackIff`).
- A source without lines is printed to LCOV and read back as nothing; `Lcov.PrintedReadsBackIff` says exactly which
  records survive.
- A list of only empty paths plans no gate at all, while an empty list plans every gate
  (`GatePlan.NothingPlannedIff`).

## Assumptions

- A formation digest is any function into 64 digits. The theorems that need names kept apart assume that it tells
  apart the finitely many values they digest, each listed by a function (`Planner.PlanValues`,
  `SessionPlan.ValuesAtHand`), and the planned episode names of one session (`SessionPlan.SegmentsTold`); entity
  references likewise (`Entities.IntervalsTell`). The vector cache takes text fingerprints to tell the texts of the
  request and of the cache apart, and a bundle's digest and content-addressed id are the events themselves.
- A file rewritten with other bytes moves its length or its modification time (`StampsTell`), as
  `crates/kmp-embedded/src/file_stamp.rs` says.
- JSON encoding and decoding are inverse; timestamps, Unicode folding, tokenizers, encoders and logarithms are functions
  taken as given. Sequence numbers, revisions and counts are unbounded.
- Reals stand for floats in ranking, quantisation and floors.
- A rename, a hard link and the check before a rename are single steps of the filesystem, except where the model takes
  them apart on purpose.

## Model

| member | source | states |
|---|---|---|
| Bundles.StreamAppend | crates/kmp-adapter-embedded/src/adapter/head_stream.rs:38-56 | a head stream extended by later events is the stream built from all of them at once |
| Bundles.StreamFields | crates/kmp-adapter-embedded/src/adapter/head_stream.rs:15-26 | what a stream carries beside its payload is determined by the payload: count, abouts, newest time, cards |
| Bundles.HeadBundleReadsBack | crates/kmp-adapter-embedded/src/adapter/portability.rs:232-342 | an encoded head is accepted when read exactly when its stream is provable, and then gives back its events |
| Bundles.EncodeInjective | crates/kmp-adapter-embedded/src/adapter/head_stream.rs:58-66 | two streams with one encoding hold the same events |
| Bundles.ExcludingAppend | crates/kmp-adapter-embedded/src/adapter/portability.rs:360-372 | excluding abouts goes event by event, so it commutes with appending |
| Bundles.ExcludingTwice | crates/kmp-adapter-embedded/src/adapter/portability.rs:187-196 | excluding the same abouts again changes nothing |
| Bundles.MergeIffPrefix | crates/kmp-adapter-embedded/src/adapter/portability.rs:201-225 | two readable bundles merge exactly when one history is a prefix of the other |
| CommittedTails.AuthoredAppend | crates/kmp-embedded/src/read_head.rs:27-37 | the authored stream of a longer log is that of the log so far and that of the rest, gaps and exclusions included |
| CommittedTails.Read | crates/kmp-embedded/src/read_head.rs:17-44 | the loop over the log gives the authored stream of the whole log and the tail it ends on |
| CommittedTails.Extended | crates/kmp-embedded/src/committed_tail.rs:54-91 | it answers exactly when the tail's last event is still in place, and then with the tail's stream extended by what is authored after it |
| CommittedTails.FaithfulGrows | crates/kmp-embedded/src/committed_tail.rs:16-23 | a tail that remembers a prefix of the log keeps doing so however the log grows |
| CommittedTails.ExtensionIsHead | crates/kmp-embedded/src/committed_tail.rs:51-91 | extending a faithful tail over any later log gives what a full read of that log gives |
| CommittedTails.HoldsMeansSame | crates/kmp-embedded/src/committed_tail.rs:36-49 | where a faithful tail holds, the committed file is the bundle of the whole authored log |
| SameHistory.ProofIffSameHistory | crates/kmp-embedded/src/commit_bundle.rs:155-208 | the full check succeeds exactly when both sides are readable and hold one provable authored stream |
| SameHistory.FastCheckRefinesFull | crates/kmp-embedded/src/commit_bundle.rs:132-142 | where the tail holds, both sides are one history, and the full check would succeed if and only if that stream is provable |
| SameHistory.HoldsWithoutProof | crates/kmp-embedded/src/commit_bundle.rs:295-317 | an input on which the fast check passes and the full check refuses |
| WriteProtocol.StepKeeps | crates/kmp-embedded/src/commit_bundle.rs:87-404 | every step of every process, failure, crash, power loss and change by others keeps the invariant of lock, markers, files and tails |
| WriteProtocol.RunKeeps | crates/kmp-embedded/src/commit_bundle.rs:87-404 | every run of those steps, of any length and by any number of processes, keeps that invariant |
| WriteProtocol.QuietMeansSame | crates/kmp-embedded/src/commit_bundle.rs:3-8 | whenever no marker is pending the committed bundle carries exactly the authored stream, and so does whatever a power loss could leave there |
| WriteProtocol.GuardDiscipline | crates/kmp-embedded/src/commit_bundle.rs:111-143 | one process at a time is past the lock, an open guard's marker is the only one and durable, a tail is in the memo or in one guard and never both, and without a power loss there is at most one marker |
| WriteProtocol.BeginsOnOneHistory | crates/kmp-embedded/src/commit_bundle.rs:122-142 | a write begins only where no marker is pending and both sides hold the very history it remembers, on either path; the full check agrees exactly on provable streams |
| WriteProtocol.FailedPublishForgets | crates/kmp-embedded/src/commit_bundle.rs:246-253 | a failed publish leaves no tail behind, in the guard or in the memo |
| WriteProtocol.SpentNeverPublishes | crates/kmp-embedded/src/commit_bundle.rs:246-261 | a guard whose tail is spent can publish nothing more |
| WriteProtocol.PublishIsExact | crates/kmp-embedded/src/commit_bundle.rs:241-317 | a publish puts in place what a full head read would write, continues the stream the write began on and replaces the very text it began on |
| WriteProtocol.BundlesFormAChain | crates/kmp-embedded/src/commit_bundle.rs:254-290 | in a run without a loss of power or a change by others, each committed bundle carries a prefix of every later one |
| WriteProtocol.PowerLossKeepsChainIff | crates/kmp-embedded/src/commit_bundle.rs:254-290 | a loss of power keeps that chain exactly where no content it could leave is behind the one in place |
| WriteProtocol.OrphanBlocks | crates/kmp-embedded/src/commit_bundle.rs:122-130 | until a repair, an orphan marker makes every later write refuse to begin, through any crashes and power losses |
| WriteProtocol.CrashOrphans | crates/kmp-embedded/src/commit_bundle.rs:333-343 | after a crash or a dropped guard the guard's marker stays, pending and durable, with nobody past the lock |
| WriteProtocol.PublishingIsReachable | crates/kmp-embedded/src/commit_bundle.rs:287-289 | a run that ends between a publish's last look at the file and its rename |
| WriteProtocol.RewriteInsidePublishIsLost | crates/kmp-embedded/src/commit_bundle.rs:300-313 | a rewrite between a publish's last look at the file and its rename is replaced unseen, whatever it wrote |
| WriteProtocol.RewriteBeforeRememberIsTrusted | crates/kmp-embedded/src/commit_bundle.rs:287-289 | a rewrite between the rename and the look at the stamp is remembered as this process's own, and the tail check then passes on it |
| WriteProtocol.TwoMarkersAfterPowerLoss | crates/kmp-embedded/src/commit_bundle.rs:386-404 | a run with a loss of power that ends with two markers |
| WriteProtocol.OneMarkerStays | crates/kmp-embedded/src/commit_bundle.rs:210-236 | no step but a loss of power takes one marker to two |
| WriteProtocol.SecondMarkerIff | crates/kmp-embedded/src/commit_bundle.rs:386-404 | a second marker can come exactly where the visible and the durable markers together are more than one |
| CommitBundle.CommitNativeBundle.Acquire | crates/kmp-embedded/src/commit_bundle.rs:98-130 | takes the lock or refuses while a marker is pending, as steps of the machine |
| CommitBundle.CommitNativeBundle.ProveBegun | crates/kmp-embedded/src/commit_bundle.rs:132-142 | takes the memo, tries the tail and falls back to the full check |
| CommitBundle.CommitNativeBundle.MarkPending | crates/kmp-embedded/src/commit_bundle.rs:210-236 | the guard exists only once its marker is durable |
| CommitBundle.CommitNativeBundle.BeginWrite | crates/kmp-embedded/src/commit_bundle.rs:87-151 | every beginning, successful or refused at any point, is a run of the machine and leaves the store alone |
| CommitBundle.CommitNativeBundle.TailHead | crates/kmp-embedded/src/commit_bundle.rs:295-312 | the head of the fast path, or its refusal when file or history moved |
| CommitBundle.CommitNativeBundle.FullHead | crates/kmp-embedded/src/commit_bundle.rs:254-286 | the head of the slow path, or its refusal |
| CommitBundle.CommitNativeBundle.Publish | crates/kmp-embedded/src/commit_bundle.rs:241-317 | either path, successful or failed at any point, is a run of the machine |
| CommitBundle.CommitNativeBundle.Complete | crates/kmp-embedded/src/commit_bundle.rs:353-361 | removes the guard's own marker durably, then unlocks |
| CommitBundle.CommitNativeBundle.Finish | crates/kmp-mcp/src/serving/adapters/embedded/commit_native_write_guard.rs:30-79 | callers complete only after a successful publish or a rejection that appended nothing |
| CommitBundle.CommitNativeBundle.RepairPending | crates/kmp-mcp/src/cli/transfer.rs:140-180 | the head is exported, proved and durable before any marker is cleared; stopped at any point, it is a step of the machine or did nothing |
| CommitBundle.ClearPending | crates/kmp-embedded/src/commit_bundle.rs:379-384 | clears every marker until one resists, each removal made durable |
| JetStream.EventIsNotIdem | crates/kmp-adapter-nats/src/context_event_store.rs:52-58 | event and idempotency subjects never coincide |
| JetStream.EventSubjectInjective | crates/kmp-adapter-nats/src/context_event_store.rs:52-54 | an event subject determines root and role when the roles have no dot |
| JetStream.DottedRolesCollide | crates/kmp-adapter-nats/src/context_event_store.rs:52-54 | an instance: "a.b" with role "c" and "a" with role "b.c" |
| JetStream.SubjectsMeetIff | crates/kmp-adapter-nats/src/context_event_store.rs:52-54 | two aggregates share an event subject exactly when they are the same, or one root goes on where the other ends with the beginning of the other's role |
| JetStream.RolesSafeIff | crates/kmp-adapter-nats/src/context_event_store.rs:52-54 | subjects of a set of roles determine root and role exactly when no role of the set ends in a dot and another of them |
| JetStream.IdemSubjectInjective | crates/kmp-adapter-nats/src/context_event_store.rs:56-58 | an idempotency subject determines its key |
| JetStream.LastEvent | crates/kmp-adapter-nats/src/context_event_store.rs:74-83 | the last message on an event subject is the last event stored for it |
| JetStream.MovedMeansMore | crates/kmp-adapter-nats/src/context_event_store.rs:124-135 | a subject whose last sequence moved has more events than it had |
| NatsAppend.StepKeeps | crates/kmp-adapter-nats/src/context_event_store.rs:102-186 | every client step, delivery, loss, acknowledgement and crash keeps the invariant |
| NatsAppend.Linearizable | crates/kmp-adapter-nats/src/context_event_store.rs:102-186 | every answer but Unavailable is that of one moment inside its call, and the moments are a history of an atomic "append if the revision is as expected" |
| NatsAppend.RevisionsCount | crates/kmp-adapter-nats/src/context_event_store.rs:120-128 | the stored revisions of an aggregate are 1, 2, 3 without gap or repeat |
| NatsAppend.RecordsAreJustified | crates/kmp-adapter-nats/src/context_event_store.rs:160-183 | an idempotency record follows a stored event of its key, revision and hash: crashes lose records and never invent one |
| NatsAppend.AtMostOneAccepted | crates/kmp-adapter-nats/src/context_event_store.rs:130-151 | of appends that expected one revision of one subject at most one is accepted |
| NatsAppend.AcceptedCounted | crates/kmp-adapter-nats/src/context_event_store.rs:130-151 | after an accepted append the revision stays above the expected one |
| NatsAppend.ConflictsAreReal | crates/kmp-adapter-nats/src/context_event_store.rs:114-118 | every conflict found another revision at its moment |
| NatsStore.NatsContextEventStore.LastEventFor | crates/kmp-adapter-nats/src/context_event_store.rs:62-98 | revision, hash and sequence of the subject's last event, or nothing |
| NatsStore.NatsContextEventStore.CurrentRevision | crates/kmp-adapter-nats/src/context_event_store.rs:188-193 | the revision of the last event, zero without one |
| NatsStore.NatsContextEventStore.Append | crates/kmp-adapter-nats/src/context_event_store.rs:102-186 | for every interference before, between and after, exactly what is stored and what is answered |
| NatsStore.NatsContextEventStore.FindByIdempotencyKey | crates/kmp-adapter-nats/src/context_event_store.rs:206-232 | the last record of the key, or nothing |
| NatsStore.StoredIsReturned | crates/kmp-adapter-nats/src/context_event_store.rs:120-128 | the stored event carries the returned revision if and only if its caller wrote expected + 1 into it |
| BundleFile.StepKeeps | crates/kmp-embedded/src/bundle_file.rs:17-140 | every step of every concurrent call keeps visible names on complete, synced files |
| BundleFile.VisibleIsWhole | crates/kmp-embedded/src/bundle_file.rs:13-16 | whatever stops wherever, a reader finds a whole bundle that was there before or was given to some call |
| BundleFile.OldOrNew | crates/kmp-embedded/src/bundle_file.rs:17-66 | at every point of one replacement the path holds the whole old or the whole new bundle; on Windows, when it holds neither, the old one is under the set-aside name |
| BundleFile.FixedOnce | crates/kmp-embedded/src/bundle_file.rs:68-105 | once a path published only once is there, no step changes what it holds |
| BundleFile.AtMostOneWins | crates/kmp-embedded/src/bundle_file.rs:68-105 | at most one publication answers true, and the path holds its bundle ever after, on Unix across losses of power too |
| BundleFile.Disk.ReplaceFile | crates/kmp-embedded/src/bundle_file.rs:119-140 | the platform's replacement, as steps of the machine |
| BundleFile.Disk.WriteBundleAtomically | crates/kmp-embedded/src/bundle_file.rs:17-66 | create, write, sync, replace, sync the directory, or clean up: a run of the machine that ends with the bundle in place or a failure |
| BundleFile.Disk.WriteBundleIfAbsent | crates/kmp-embedded/src/bundle_file.rs:72-105 | true only with this call's bundle at the path, false only where the path was taken |
| Contracts.CheckEpisode | scripts/formation/contracts.py:34-57 | the loop accepts exactly the admissible episodes, their clocks included |
| Contracts.CheckCitations | scripts/formation/contracts.py:76-87 | accepts exactly citations that are literal, each on its own, and no two of which quote the same words of one source |
| Contracts.Candidates | scripts/formation/contracts.py:60-96 | answers exactly for at most 24 memories of an admissible episode; the loop keeps the two lists the next rows describe |
| Contracts.CandidatesSplit | scripts/formation/contracts.py:66-96 | every memory is admitted or listed as rejected with the index it stood at, never both; admitted exactly when acceptable and no earlier acceptable memory has its fingerprint, in the order given |
| Contracts.CanonicalForgetsOrder | scripts/formation/contracts.py:88-89 | the order of its citations does not reach an acceptable memory's canonical form or fingerprint |
| Contracts.WithinIsLiteral | scripts/formation/contracts.py:82-83 | an accepted quote is a substring at some place |
| Contracts.LiteralIsWithin | scripts/formation/contracts.py:82-83 | a quote that is a substring at any place is accepted |
| Contracts.AdmittedJustified | scripts/formation/contracts.py:67-96 | what is admitted is the canonical form of an acceptable memory, under its own digest, once |
| Contracts.AcceptableAdmitted | scripts/formation/contracts.py:67-96 | where equal fingerprints mean equal canonical forms among these memories, every acceptable memory is admitted under its own name |
| Contracts.Verdicts | scripts/formation/contracts.py:99-117 | answers exactly on lists of as many rows as candidates, each naming a candidate, none twice |
| Contracts.VerdictsPart | scripts/formation/contracts.py:104-117 | the two lists part the candidates: accepted ones in name order, rejected ones with the reason of their own verdict, every candidate in exactly one |
| Contracts.VerdictsCover | scripts/formation/contracts.py:102-112 | accepted verdicts name exactly the candidates, none left unjudged, and such candidates have different names |
| Contracts.SupportedIff | scripts/formation/contracts.py:106-117 | a candidate is accepted exactly when a verdict supports it |
| Contracts.VerdictOrderIrrelevant | scripts/formation/contracts.py:102-117 | a permuted verdict list is accepted or refused alike, with the same accepted list and the same candidates rejected for the same reasons |
| Segment.ValidateTurns | scripts/formation/segment.py:30-51 | accepts exactly valid turns of one reporting instant and splits off the blank ones |
| Segment.PackRow | scripts/formation/segment.py:60-73 | one row takes context if it fits, at least one turn, and then as many as the limits allow |
| Segment.SegmentSession | scripts/formation/segment.py:13-84 | succeeds exactly on admissible sessions, so the check on each planned episode never refuses, and the rows cover every usable turn |
| Segment.NewIdsInOrder | scripts/formation/segment.py:76-78 | the new source ids, row after row, are the usable turns in order |
| Segment.RowKeepsLimits | scripts/formation/segment.py:62-78 | turn and character limits, oversize only alone, context the previous turn or recorded as omitted |
| Segment.GreedyStaysAhead | scripts/formation/segment.py:58-73 | after as many segments, the packing has covered at least as much as any admissible split |
| Segment.FewestEpisodes | scripts/formation/segment.py:58-78 | without overlap no admissible split has fewer episodes |
| Segment.PlanIsUnique | scripts/formation/segment.py:58-78 | a session and a policy fix the plan |
| Planner.Derive | scripts/formation/planner.py:39-50 | groups one memory's citations by original, in first-cited order |
| Planner.CompilePlan | scripts/formation/planner.py:5-61 | succeeds exactly on admissible inputs and writes originals, memories, relations and evidence as specified |
| Planner.AcceptedJustified | scripts/formation/planner.py:11-12 | accepted memories are justified, supported, distinct and in name order |
| Planner.PlanProofHolds | scripts/formation/planner.py:39-50 | whatever the digest, every endpoint of a compiled plan is there and every quote is literal in the original it names |
| Planner.PlanIsGrounded | scripts/formation/planner.py:18-50 | where the digest tells the plan's own values apart, no name is repeated either, and every entry is an unchanged source or a named memory |
| Planner.DerivationsAreCited | scripts/formation/planner.py:39-50 | a memory is derived from exactly the originals it cites, once each |
| SessionPlan.Collect | scripts/formation/session_plan.py:15-46 | accepts exactly lists of acceptable attempts, one per planned episode |
| SessionPlan.Check | scripts/formation/session_plan.py:18-43 | one attempt is validated again and compiled afresh, never trusted |
| SessionPlan.Assemble | scripts/formation/session_plan.py:71-89 | the plans are taken up in planned episode order, and every lookup of an original succeeds |
| SessionPlan.CheckedResolves | scripts/formation/session_plan.py:76-89 | accepted attempts leave only plans whose every reference can be looked up, whatever the digest |
| SessionPlan.PlansPermute | scripts/formation/session_plan.py:17-45 | a permuted list of attempts is accepted or refused alike and leaves the same plans |
| SessionPlan.LatestPermutes | scripts/formation/session_plan.py:70-70 | the clock of the formed ingest does not depend on the order of the attempts |
| SessionPlan.OrderIrrelevant | scripts/formation/session_plan.py:68-89 | the formed ingest is the same for every permutation of the attempts |
| SessionPlan.BaselineIsPrefix | scripts/formation/session_plan.py:63-85 | the baseline is a prefix of the formed entries, only derived entries follow, and sequences run from one to the last |
| SessionPlan.EndpointsArePresent | scripts/formation/session_plan.py:77-89 | every relation and quote ends at entries that are there, quotes literally, after translation to the session's names |
| SessionPlan.EntriesAreDistinct | scripts/formation/session_plan.py:79-85 | no two formed entries share a name, whatever the episodes overlap |
| SessionPlan.FormedIsFaithful | scripts/formation/session_plan.py:49-89 | for the formed session, where the digest tells the values at hand apart: each usable turn there exactly once, first and in order; derived entries after, numbered on; no name twice; every relation and quote ends at an entry that is there, quotes literally |
| SessionPlan.CompileSession | scripts/formation/session_plan.py:9-94 | accepted exactly when the session and one attempt per episode are; the result is as specified |
| Entities.Find | scripts/kmp_entities/boundary.py:18-22 | the first occurrence at or after a place |
| Entities.Positions | scripts/kmp_entities/boundary.py:18-22 | exactly the occurrences, overlapping ones too, in increasing order |
| Entities.OccurrencesUnique | scripts/kmp_entities/boundary.py:32-35 | there is one such list, so the n-th occurrence is well defined |
| Entities.Locate | scripts/kmp_entities/boundary.py:25-36 | the literal interval asked for, or a refusal exactly when there is none |
| Entities.Covers | scripts/kmp_entities/boundary.py:71-75 | whether some quote of the mention's source contains its interval |
| Entities.LocatedOnce | scripts/kmp_entities/boundary.py:25-36 | a mention asked for is at most one interval |
| Entities.ProvedOnce | scripts/kmp_entities/boundary.py:45-79 | a proposal proves at most one identity |
| Entities.Judge | scripts/kmp_entities/boundary.py:45-79 | one proposal is refused exactly when it proves nothing, or only a pair already seen |
| Entities.Candidates | scripts/kmp_entities/boundary.py:39-82 | answers exactly for at most 32 proposals of an admissible context; a proposal is accepted exactly when it proves an identity whose pair no earlier one proved, in the order given, the others listed with their index |
| Entities.SiftedApart | scripts/kmp_entities/boundary.py:50-51 | no pair is accepted twice |
| Entities.NodeRefTells | scripts/kmp_entities/planner.py:48-55 | two mentions with one node are one occurrence |
| Entities.Node | scripts/kmp_entities/planner.py:48-71 | one node per occurrence, repeating its own interval; it refuses only an occurrence given two kinds, and adds at the end |
| Entities.ProvedResolvable | scripts/kmp_entities/planner.py:73-76 | what the boundary accepts can be bound |
| EntityGraph.ProvedCited | scripts/kmp_entities/planner.py:73-91 | what the boundary accepts cites registered originals only, so its quotes can be added |
| EntityGraph.AddOne | scripts/kmp_entities/planner.py:73-91 | one identity adds its new nodes, each with its source edge and quote, then its own edge and quotes |
| EntityGraph.Augment | scripts/kmp_entities/planner.py:37-98 | refused exactly when one occurrence is given two kinds; otherwise every base record stays as it was and where it was, and what follows is exactly the nodes of the identities' ends, their source edges and quotes, the identities with all their quotes, and one binding each |
| EntityGraph.EdgesGrounded | scripts/kmp_entities/planner.py:64-81 | every added edge starts at a mention that is there and ends at its registered original, or at another mention that is there |
| Entities.BindingsSound | scripts/kmp_entities/planner.py:73-94 | every binding joins two different mention nodes of one kind that are there |
| Expand.RelationOkIsFrozen | scripts/kmp_entities/expand.py:65-73 | an admitted relation is a frozen one, field for field, at or before the cutoff |
| Expand.ChainSnoc | scripts/kmp_entities/expand.py:34-62 | one more fitting page keeps the pages a chain of one unchanged object |
| Expand.Absorb | scripts/kmp_entities/expand.py:37-62 | a page is taken only if it is the frozen object, agrees with the pages before and ends or leads on |
| Expand.Expansion.Inspect | scripts/kmp_entities/expand.py:25-63 | what is cached matches the frozen entry and was paged to its end; a refusal leaves the cache alone |
| Expand.Expansion.FetchPages | scripts/kmp_entities/expand.py:34-63 | the paging loop never lets counted answers exceed the shared budget, and at most one call raises, the last |
| Expand.Expansion.Source | scripts/kmp_entities/expand.py:75-85 | succeeds exactly on frozen originals the reader confirms in time |
| Expand.Expansion.Mention | scripts/kmp_entities/expand.py:87-99 | succeeds only on mentions borne out by what was returned, and on every such mention when the frozen clocks parse |
| Expand.Expansion.CollectQuotes | scripts/kmp_entities/expand.py:126-137 | succeeds exactly when every quote is returned, frozen, in time and literal |
| Expand.Expansion.Judge | scripts/kmp_entities/expand.py:119-141 | accepts exactly the links that meet every requirement, when the frozen clocks parse |
| Expand.Expansion.Consider | scripts/kmp_entities/expand.py:112-143 | each pair comes out once, as a group or as a refusal |
| Expand.Expansion.ExpandSeed | scripts/kmp_entities/expand.py:101-145 | one seed, read to its end or failed: every group stays proven, every pair accounted for once, and each call that raised left a refusal |
| Expand.GroupKeeps | scripts/kmp_entities/expand.py:140-141 | a proven group stays proven as the cache grows |
| Expand.Expand | scripts/kmp_entities/expand.py:5-151 | for any answers: every group proven, no pair twice, only whole objects cached, counted answers within the budget; calls within the budget exactly when those that raised fit into what the answers left of it, so always when none raises, and never more than the budget and the refusals together |
| Expand.RaisedCallsEscapeBudget | scripts/kmp_entities/expand.py:34-36 | for every budget, a reader that always raises is called once for each different known seed, so more often than the budget exactly when there are more of them |
| Expand.ProvenMeans | scripts/kmp_entities/expand.py:119-141 | in the frozen plan's own terms: a frozen relation of a frozen binding, literal mentions of one kind, distinct exactly when the binding's are, at least one literal quote, all clocks by the cutoff |
| Expand.LinkMayStartElsewhere | scripts/kmp_entities/expand.py:93-95 | a mention read to its end can be borne out by a link that starts at another mention |
| Expand.KindIsFrozen | scripts/kmp_entities/expand.py:38-41 | the kind two returned mentions are compared by is the one the plan froze |
| Text.LinesReadBack | scripts/ci/merge-coverage.py:40-40 | printed lines without a break are split into the same lines |
| Text.FieldsSplit | scripts/ci/merge-coverage.py:46-46 | two comma-free fields come back |
| Text.IntReadsBack | scripts/ci/merge-coverage.py:49-50 | a printed integer is read back |
| Lcov.ReadFragment | scripts/ci/merge-coverage.py:36-59 | the loop computes the reader's function, errors included |
| Lcov.WriteLcov | scripts/ci/merge-coverage.py:76-88 | the loops print the report's lines in order |
| Lcov.ReadIsWellFormed | scripts/ci/merge-coverage.py:36-59 | anything read has a line for every source, no negative count and no name with a break |
| Lcov.LineTakesEffect | scripts/ci/merge-coverage.py:41-55 | each printed line does to the reader what it says |
| Lcov.SourceTakesEffect | scripts/ci/merge-coverage.py:79-88 | one printed source is read back beside those before it |
| Lcov.PrintedReadsBackIff | scripts/ci/merge-coverage.py:36-88 | printing and reading back is the identity exactly on non-empty records of that kind |
| LcovMerge.MergeFragments | scripts/ci/merge-coverage.py:62-73 | the loops compute the merge |
| LcovMerge.MergeCommutes | scripts/ci/merge-coverage.py:62-73 | merging is commutative |
| LcovMerge.MergeAssociates | scripts/ci/merge-coverage.py:62-73 | merging is associative |
| LcovMerge.MergeAbsorbs | scripts/ci/merge-coverage.py:62-73 | merging is idempotent, and merging with nothing changes nothing |
| LcovMerge.MergedIsBest | scripts/ci/merge-coverage.py:68-72 | a merge has exactly the lines some fragment has, each with the largest count |
| LcovMerge.CoveredIff | scripts/ci/merge-coverage.py:68-69 | a line is covered in the merge exactly when some fragment covers it |
| LcovMerge.MergeForgetsOrder | scripts/ci/merge-coverage.py:62-73 | only which fragments there are matters |
| Ratchet.WriteFloors | scripts/ci/merge-coverage.py:217-253 | the loop computes the ratchet |
| Ratchet.KeepsWhole | scripts/ci/merge-coverage.py:246-253 | what the ratchet records are whole percents, if what it starts from is |
| FloorsFile.PrintFloors | scripts/ci/merge-coverage.py:254-258 | the loop prints the comments and then one line for each crate, in order |
| FloorsFile.ReadFloors | scripts/ci/merge-coverage.py:202-214 | the loop computes the reader's function, errors included |
| FloorsFile.FloorsReadBackIff | scripts/ci/merge-coverage.py:202-258 | recorded floors are read back as written exactly when no crate's name has a tab, a line break or space around it, starts like a comment, or is `crate` |
| Ratchet.EnforceFloors | scripts/ci/merge-coverage.py:262-302 | reports exactly the judged crates below their floor, or below the bar without one |
| Ratchet.NeverLowers | scripts/ci/merge-coverage.py:242-244 | no floor is lowered or dropped, and only crates below the bar move |
| Ratchet.EndsAtHighest | scripts/ci/merge-coverage.py:246-253 | after any runs a crate's floor is the highest of the old one and its rounded measurements below the bar |
| Ratchet.RunsForgetOrder | scripts/ci/merge-coverage.py:229-259 | runs commute and may be repeated |
| Ratchet.BaselineFailsIff | scripts/ci/merge-coverage.py:229-302 | enforcing a measurement right after recording it fails exactly where an older floor is above it |
| GatePlan.TakeDependents | scripts/ci/quality-gate-plan.py:95-98 | the dependents of one package join the affected set, each queued the first time |
| GatePlan.ReverseClosure | scripts/ci/quality-gate-plan.py:86-99 | exactly the packages that reach a changed one through dependency edges, on any graph |
| GatePlan.ReachesUnion | scripts/ci/quality-gate-plan.py:86-99 | affected packages of a union are the union of the affected packages |
| GatePlan.TakeRoutes | scripts/ci/quality-gate-plan.py:217-327 | the routes of the paths outside every crate, or a full run when one forces it |
| GatePlan.PlanFor | scripts/ci/quality-gate-plan.py:133-331 | full exactly when forced, asked for or without paths; otherwise a gate runs exactly when a crate or a route asks for it |
| GatePlan.GatesGrow | scripts/ci/quality-gate-plan.py:133-331 | adding paths never turns a gate off |
| GatePlan.PlanBoth | scripts/ci/quality-gate-plan.py:133-331 | two plans, one of a non-empty list and one of a longer list: every gate on in the first is on in the second |
| GatePlan.UnknownTurnsAllOn | scripts/ci/quality-gate-plan.py:325-327 | one unclassified path turns every gate on |
| GatePlan.NothingPlannedIff | scripts/ci/quality-gate-plan.py:137-140 | no gate runs exactly when every path left is routed to none, a list of empty paths included |
| GateRoutes.PlanRepository | scripts/ci/quality-gate-plan.py:141-323 | the plan with the repository's own roots, routes and triggers |
| Kmpb.WriteTable | scripts/lexical-bridge/build.py:173-194 | writes the encoding of the sorted rows, or fails exactly when a size does not fit its field |
| Kmpb.Cursor.Take | crates/kmp-proto-mapping/src/v1beta1/memory_mapping/lexical_bridge_table.rs:195-205 | the next bytes, or a refusal that moves nothing |
| Kmpb.ReadOffsets | crates/kmp-proto-mapping/src/v1beta1/memory_mapping/lexical_bridge_table.rs:42-60 | accepts exactly offsets that start at zero and never fall |
| Kmpb.ValidateWords | crates/kmp-proto-mapping/src/v1beta1/memory_mapping/lexical_bridge_table.rs:165-180 | accepts exactly UTF-8 words in strictly increasing order |
| Kmpb.ParseTable | crates/kmp-proto-mapping/src/v1beta1/memory_mapping/lexical_bridge_table.rs:23-95 | the reader as a whole: every section, every byte |
| Kmpb.HeadReadsBack | scripts/performance/lexical_bridge_phases.rs:39-45 | a written header is read back and leaves exactly the bytes that follow it |
| Kmpb.U32sReadBack | scripts/performance/lexical_bridge_phases.rs:46-49 | written 32-bit offsets are read back |
| Kmpb.TableReadsBackIff | scripts/performance/lexical_bridge_phases.rs:33-72 | a written table is read back whole, no byte left over, exactly when its words strictly increase |
| Kmpb.StrictIffDistinct | scripts/lexical-bridge/build.py:176-178 | sorted words strictly increase exactly when they are distinct |
| Kmpb.RowReadsBack | scripts/performance/lexical_bridge_phases.rs:57-61 | every word comes back with its own quantised vector |
| Kmpb.IndexOf | crates/kmp-proto-mapping/src/v1beta1/memory_mapping/lexical_bridge_table.rs:105-116 | the binary search finds a word exactly when the table has it |
| Kmpb.NormOf | crates/kmp-proto-mapping/src/v1beta1/memory_mapping/lexical_bridge_table.rs:148-162 | the squared norm of the vector read |
| Kmpb.NormBounded | scripts/lexical-bridge/build.py:179-179 | a written vector's squared norm is at most its width times 16129 |
| Kmpb.Deduplicate | scripts/lexical-bridge/build.py:211-222 | the loop keeps the list `Kmpb.FirstListed` describes |
| Kmpb.FirstListed | scripts/lexical-bridge/build.py:211-222 | of the words that fold onto one admitted key exactly one is kept, the first listed, under the fold of its own surface |
| Kmpb.SurfaceFindsItself | scripts/lexical-bridge/build.py:230-230 | looking a kept word up by its surface finds its own key |
| Kmpb.Embed | scripts/lexical-bridge/build.py:154-170 | vectors stay paired with the keys of their words |
| Kmpb.VocabularyReadsBack | scripts/lexical-bridge/build.py:211-231 | from any word list, the table is readable to its last byte; every row holds the vector of the first word listed with its key, and no admitted key is missing whose first word the teacher has a vector for |
| Ranking.UniqueRefs | scripts/semantic/lexical_ranking.py:59-67 | the first of every ref, at most k |
| Ranking.TakeVotes | scripts/semantic/lexical_ranking.py:38-49 | one ranking's first hundred different refs vote by place; repeats are passed over and the first fingerprint is kept |
| Ranking.Fuse | scripts/semantic/lexical_ranking.py:36-50 | the best scored refs with the fingerprint of the first channel |
| Ranking.FusionRespectsDominance | scripts/semantic/lexical_ranking.py:36-50 | what precedes wherever it counts, and somewhere strictly, comes out first |
| Retrieval.Bm25 | scripts/semantic/lexical_ranking.py:11-33 | the loops compute the scores over unique rows, positive ones best first |
| Retrieval.Bm25ForgetsOrder | scripts/semantic/lexical_ranking.py:12-13 | permuting or repeating rows changes nothing |
| Retrieval.Retriever.Vectors | scripts/semantic/retriever.py:21-39 | every source gets its own text's vector, cached or encoded; what was cached stays, and the cache then holds the vectors of these texts too |
| Retrieval.Retriever.Rank | scripts/semantic/retriever.py:13-64 | from any valid cache, the answer no cache would give, and a refusal exactly on invalid requests |
| Retrieval.DenseForgetsOrder | scripts/semantic/retriever.py:40-55 | the dense ranking is unchanged by permuting or repeating rows |
| Retrieval.AnswerForgetsOrder | scripts/semantic/retriever.py:13-64 | and so is the whole answer, under every policy |

## Left out

- JSON, SQLite, NATS connections, file permissions and error texts: steps and results stand for them.
- The wrap-around of the card revision check at the largest 64-bit value, and of every other fixed-width counter.
- NatsStore.NatsContextEventStore.Append: callers outside the repository could pass an event whose revision is not the
  expected one plus one; the protocol's theorems take it to be, and `NatsStore.StoredIsReturned` says why.
- `current_content_hash`, the stream's set-up and its retention limits.
- SessionPlan.CompileSession: entry fields that are a function of others (kind, source kind, fixed labels) and the
  report's counts are not carried; evidence ids are pairs, not text.
- EntityGraph.Augment: coordinates, labels, the added dimension and a binding's id and date are not carried, and of the
  order of what is added only that it follows the base; the checks of the base's registry are taken as passed.
- Expand.Expand: rejection reasons, the axis and the byte budget passed on to the reader.
- FloorsFile.FloorsReadBackIff: floors that are not whole, or of a million and more, which print in another form; what
  `float` makes of a text is taken as given.
- GateRoutes.PlanRepository: reading manifests into packages and edges, and the printed reason and package list.
- Kmpb.ParseTable: the norm cache, and the diagnostic reader of the same format, which also accepts a table of zero
  width, a provenance that is not UTF-8 and a first offset other than zero.
- Text.IntReadsBack: digits outside ASCII, which Python would also read.
- Time zones and calendar arithmetic: a clock carries its text and the instant it names, if it names one.
- `crate_of`, `coverage` percentages, the identity verdict form, prompts, servers, configuration and the viewer.
