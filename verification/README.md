# A verified model of the digital-twin kernel

This project models the event-sourced digital-twin kernel (`src/argo_dt`) in Dafny and proves what its
layers promise, one by one and together. Run `dafny verify dfyconfig.toml` to check it.

The kernel keeps an append-only, hash-chained ledger of events for each twin. A fold turns a ledger into
the twin's state; snapshots and a cache of mutable state objects shorten the fold. Every append also
writes an outbox row and lineage edges. Relays drain the outbox into a broker, and clients follow a twin
through subscriptions that stitch replay and live delivery together. Elicitation plans, lineage traces,
disclosed projections and telemetry batches are built on top.

## How the model is laid out

| file | what it models |
|---|---|
| `Types`, `Orders` | identifiers, payloads, events, errors; sets listed in ascending order |
| `Chain` | sealing, verification, the hash chain |
| `Aggregate`, `TwinState`, `Fold`, `Staleness` | the transition function as values, the mutable state object proved against it, replay, and how staleness spreads over runs |
| `Snapshot`, `Replay` | dictionaries and snapshots, and rebuilding from them |
| `Lineage`, `LineageHistory`, `Tracing` | the lineage index, queries over a possibly cyclic graph, rebuilding the index, agreement with the fold, traces |
| `EventStore`, `Outbox`, `Store` | append, leases and runs as transitions of tables; the store object proved against them |
| `ServiceLedger`, `Service` | preview-then-append on whatever state a process holds, and the service object with its cache of mutable states |
| `Processes`, `Skips` | runs of several service processes over one database, each with its own memory; what stays right, and exactly when memory goes wrong |
| `Subscription`, `SyncRuns`, `Sync`, `Relay` | one session as a transition system, whole runs of it, and the queue, broker, subscription and relay objects |
| `Handoff` | one run of writers, outbox, relays, broker and a client together: from the commit to the subscriber |
| `Elicitation`, `Compiler`, `Serving`, `Telemetry` | the consumers |
| `Instances`, `Contention`, `Redelivery` | concrete ledgers and runs, taken step by step, on which a plain statement fails |

An object that the program updates in place is a class here, and each of its methods is proved against
a function or a relation on values; the theorems about runs are about those functions and relations.

Abstractions: an identifier is a number, 0 standing for the empty string, so that identifiers have the
equality and the order that the program uses; a time is an integer; a content hash is the term of what
it covers, so that equal hashes mean equal material; name-based UUIDs are terms of their parts or given
names, and so are idempotency keys. One SQLite transaction is one step, and so is one stretch of a coroutine
between two awaits; where several processes share the database, an append is three steps: reading the head,
reading the state at the head, and the write. Clocks, random identifiers, policy decisions and the outcome of
decoding a telemetry record are arguments.

## Where the code falls short of a plain statement

Each of these comes with the condition under which the plain statement does hold.

- A claim that a request may not see can still decide its answer. An accepted claim without a valid start
  is shown to no request, yet the compiler raises on it if it passes the sensitivity limit
  (`HiddenClaimCanInterfere`, on ledgers as the service replays them). States that agree on the visible
  claims get the same answer exactly if the request is not served or both have such a claim or neither has
  (`NonInterference`); the condition is a test of each accepted claim's sensitivity and valid start, and of
  each contested one's if counterweights are asked for. Through the service, only claims that were known by
  the requested time can do so (`ServedClaimsAreKnown`).
- A rejected event can leave a trace: it can bind the twin to a subject (`RejectionLeaves`,
  `RejectionCanBind`). The service previews on a copy for that reason.
- An append through the service reads the head, then the state at the head, and then writes; other
  processes may write in between. A caller who expects a head beyond the one that was read is not
  previewed, and can commit an event that no replay accepts (`ExpectingAheadCanBreakReplay`,
  `ExpectingAheadBreaksReplay`). In general every ledger replays exactly if the transition is accepted
  where it is committed, and always if the caller expects no more than the head that was read and the
  state that was previewed is the fold there (`AppendBesideReplays`). The latter is not what the program
  checks: it compares the number and the hash of the state alone.
- When another process records something and then the caller's own request, the cached state is advanced
  past what it has not seen, and passes for the latest state from then on
  (`SkippedEventHappens`); the next append of that process, which expects the very head that it reads, can
  then leave a ledger that does not replay (`SkippedEventBreaksReplay`, from the empty database). Memory
  stays right, whatever others write, exactly if the key is free or stands no further than right after the
  head that was read (`MemoryStaysRightIffKeyIsNear`); for every request that is new and accepted next, and
  for every number of events in between, there are writes that mislead (`SkippedEventsAreMissed`). Over
  whole runs of any number of processes, a twin's ledger replays and all that is held of it is right as long
  as no answer for it lands further than that (`RunStaysRight`); one process alone never errs
  (`OneProcessStaysRight`).
- `docs/EPISTEMIC_CORE.md` says that exact retries return the original append. Through the service they
  do, unless the retry expects the current head and its transition is refused there, because the preview
  runs first (`ServiceRetry`, `RetryAtHeadIsRefused`). At the store they always do.
- A claim proposed after its evidence was superseded is not stale (`ClaimStaleIffProposedFresh`, with the
  ledger of `SupersededEvidenceCanBeCited`), and a projection issued after its source went stale is not
  marked at issue (`ProjectionMarkedIffIssuedFresh`, with the ledger of `StaleClaimCanBeProjected`).
- Selecting a state by valid time can keep a claim and drop the evidence that it cites
  (`SelectionGroundsIffEvidenceValid`, with the ledger of `SelectionUngroundsAClaim`).
- A projection may be issued under the empty identifier, and then a deletion marks it stale but queues no
  invalidation for it (`DeletionQueuesProjections`, `EmptyProjectionIdIsAccepted`).
- The hash of a version-1 event does not cover the producer's role (`V1RoleIsNotCovered`).
- Delivery is at least once: after a reconnection an event is handed out again, exactly if it was
  unacknowledged at each disconnect since (`HandedOutAgainIffUnacknowledged`, with the run of
  `EventIsHandedOutTwice`).
- Running a telemetry batch again repeats its answers exactly if no record was rejected by the preview
  alone and then followed by a commit (`RerunIsIdempotent`, `RejectionThenCommitSpoils`). It never appends.

## Model

| member | source | states |
|---|---|---|
| `Chain.VerifyChain` | src/argo_dt/event_store.py:634-645 | the audit loop accepts exactly the gap-free, hash-linked chains |
| `Chain.SealExtendsChain` | src/argo_dt/types.py:341-366 | sealing a request at the next position extends a chain to a chain |
| `Chain.HashDeterminesEvent` | src/argo_dt/types.py:341-366 | equal hashes of verifying events mean equal events, except for the role of version-1 events |
| `Chain.HeadHashDeterminesChain` | src/argo_dt/types.py:341-366 | two verifying chains with the same head hash are the same chain, up to version-1 roles |
| `Chain.V1RoleIsNotCovered` | src/argo_dt/types.py:341-346 | the exception is real: a version-1 event keeps its hash when its role changes |
| `Aggregate.EffectCoherent` | src/argo_dt/aggregate.py:450-649 | every accepted payload keeps review states disjoint and known, live claims and links grounded, contradictions between known claims, and marks on known things |
| `Aggregate.CoherenceKept` | src/argo_dt/aggregate.py:442-653 | so does every attempt to apply an event, also a rejected one |
| `Aggregate.SealIrrelevant` | src/argo_dt/aggregate.py:442-653 | whether an event is accepted depends on neither its identifier nor its recorded time and hash |
| `Aggregate.RejectionLeaves` | src/argo_dt/aggregate.py:285-291 | a rejected event leaves the state alone if and only if it does not bind a subject early on an unbound twin |
| `Aggregate.RejectionCanBind` | src/argo_dt/aggregate.py:499-501 | a rejected event that leaves a binding behind exists |
| `Aggregate.EffectKeepsSubject` | src/argo_dt/aggregate.py:285-291 | a bound twin accepts nothing that names another subject |
| `Aggregate.SelectionKeepsMarks` | src/argo_dt/aggregate.py:152-194 | what is selected by valid time keeps review states apart, contradictions between selected claims, and marks on selected things |
| `Aggregate.SelectionIsIdempotent` | src/argo_dt/aggregate.py:143-194 | selecting by the same time again changes nothing |
| `Aggregate.SelectionGroundsIffEvidenceValid` | src/argo_dt/aggregate.py:152-194 | the selection of a coherent state grounds its live claims and links exactly if those that are valid cite valid evidence only |
| `TwinObject.TwinState.ApplyEvent` | src/argo_dt/aggregate.py:442-653 | the in-place transition does to the object what the transition function says, including how far a rejected event gets |
| `TwinObject.TwinState.ApplyByType` | src/argo_dt/aggregate.py:450-649 | each branch updates the fields of the object in the order of the source, and ends as the function says or leaves behind what it says |
| `TwinObject.TwinState.Bind` | src/argo_dt/aggregate.py:285-291 | binds an unbound twin, accepts the same subject again, refuses another or an empty one |
| `TwinObject.TwinState.ProvenanceResolves` | src/argo_dt/aggregate.py:458-474 | the reference loop accepts exactly the references that name present evidence under its own group |
| `TwinObject.TwinState.MarkLinksCiting` | src/argo_dt/aggregate.py:482-498 | marks exactly the links that cite the evidence, and nothing else |
| `TwinObject.TwinState.MarkClaimsCiting` | src/argo_dt/aggregate.py:482-498 | marks exactly the claims that cite the evidence, and nothing else |
| `TwinObject.TwinState.MarkProjectionsDrawingOn` | src/argo_dt/aggregate.py:482-498 | marks exactly the projections that draw on one of the claims, and nothing else |
| `TwinObject.TwinState.OnEvidenceDeleted` | src/argo_dt/aggregate.py:482-498 | removes the evidence and spreads staleness to links, claims and projections |
| `TwinObject.TwinState.OnClaimSuperseded` | src/argo_dt/aggregate.py:541-555 | moves the claim out of review and marks its projections |
| `TwinObject.TwinState.OnContradictionAdjudicated` | src/argo_dt/aggregate.py:568-587 | records one adjudication of an open contradiction, whose preferred claims are among its own |
| `TwinObject.TwinState.OnCorrectionRecorded` | src/argo_dt/aggregate.py:588-633 | supersedes the target of a correction and spreads staleness by its kind |
| `TwinObject.TwinState.OnClaimRetired` | src/argo_dt/aggregate.py:534-540 | takes a known claim out of both review states for good |
| `TwinObject.TwinState.OnDegradationCleared` | src/argo_dt/aggregate.py:647-649 | the list comprehension drops every occurrence of the reason and keeps the order of the others |
| `TwinObject.TwinState.SelectValidAt` | src/argo_dt/aggregate.py:152-194 | returns a fresh restricted copy and leaves the state itself alone |
| `Fold.FoldSplit` | src/argo_dt/aggregate.py:690-701 | folding two stretches one after the other is folding them together, errors included |
| `Fold.FoldPosition` | src/argo_dt/aggregate.py:690-701 | a replayed state stands at one sequence number per event and at the head hash |
| `Fold.ReachableIsCoherent` | src/argo_dt/aggregate.py:442-653 | every state that a ledger can reach is coherent |
| `Fold.ReplayChecksChain` | src/argo_dt/aggregate.py:690-701 | a ledger that replays is a hash chain |
| `Fold.SubjectStays` | src/argo_dt/aggregate.py:285-291 | over a whole replay a bound subject never changes |
| `Staleness.StaleSourceMarksProjection` | src/argo_dt/aggregate.py:482-498 | when a source claim becomes stale or superseded after a projection was issued, the projection is stale |
| `Staleness.StaleSourceMarksProjectionForever` | src/argo_dt/aggregate.py:541-555 | and it stays so at every later point of the run |
| `Staleness.ProjectionMarkedIffIssuedFresh` | src/argo_dt/aggregate.py:639-645 | a projection is marked at every later point at which it draws on a stale claim, exactly if none of its sources was stale when it was issued |
| `Instances.StaleClaimCanBeProjected` | src/argo_dt/aggregate.py:639-645 | a replayable ledger on which a projection over a stale claim is accepted and not marked |
| `Staleness.SupersededEvidenceMarksClaim` | src/argo_dt/aggregate.py:588-633 | evidence that is superseded after a claim was proposed makes the claim stale for ever |
| `Staleness.ClaimStaleIffProposedFresh` | src/argo_dt/aggregate.py:499-517 | a claim is stale at every later point at which it cites superseded evidence, exactly if it cited none when it was proposed |
| `Instances.SupersededEvidenceCanBeCited` | src/argo_dt/aggregate.py:499-517 | a replayable ledger on which a claim that cites superseded, present evidence is accepted and not stale |
| `Instances.SelectionUngroundsAClaim` | src/argo_dt/aggregate.py:152-194 | a replayable ledger whose selection by valid time keeps a live claim and drops the evidence it cites |
| `Snapshots.DictRoundTrip` | src/argo_dt/aggregate.py:49-140 | reading back a written state gives that state, for exactly the states that have a place in a named stream |
| `Snapshots.DictDeterminesState` | src/argo_dt/aggregate.py:49-140 | states with the same dictionary are the same state |
| `Snapshots.RestoreRoundTrip` | src/argo_dt/types.py:381-419 | a snapshot verifies and restores to the state it was taken of, for exactly the states that have a place in a named stream |
| `Lineage.Traverse` | src/argo_dt/event_store.py:938-960 | the recursive query ends on any graph, cyclic ones included, and yields the non-reflexive transitive closure |
| `Lineage.Dependents` | src/argo_dt/event_store.py:924-972 | dependents at a cutoff, transitive or direct, as ordered rows; an unknown kind and an empty identifier are answered as the source does |
| `Lineage.Ancestors` | src/argo_dt/event_store.py:974-1031 | ancestors at a cutoff, over the reversed edges, in the same way |
| `Lineage.AnswerLists` | src/argo_dt/event_store.py:938-972 | the transitive rows are the reachable nodes, each once and in order; the direct ones are the linked nodes, once per edge |
| `Lineage.InOrderLists` | src/argo_dt/event_store.py:957-958 | rows ordered by kind and identifier list exactly the given nodes, each once |
| `Lineage.DependentsGrow` | src/argo_dt/event_store.py:924-1031 | both answers grow with the cutoff |
| `Lineage.ClosureIsReachability` | src/argo_dt/event_store.py:938-960 | a node is in the closure exactly if a path of at least one edge leads to it |
| `Lineage.DirectionsAreConverse` | src/argo_dt/event_store.py:974-1031 | at every cutoff, b depends on a exactly if a is an ancestor of b |
| `Lineage.InsertEdges` | src/argo_dt/event_store.py:359-457 | edge by edge, an event adds its edges, and the first insertion fixes their stamp |
| `Lineage.QueueImpacts` | src/argo_dt/event_store.py:458-497 | a deletion queues each impact once and leaves existing rows, processed marks included |
| `Lineage.IndexDependencies` | src/argo_dt/event_store.py:359-497 | indexing one event in place is the index transition |
| `LineageHistory.CutoffIsHistory` | src/argo_dt/event_store.py:369-386 | the edges visible at a cutoff are the edges that existed when the ledger ended there |
| `LineageHistory.QueryOfThePastIsStable` | src/argo_dt/event_store.py:924-1031 | a query at a cutoff answers at every later head what it answered then |
| `LineageHistory.RebuildIndex` | src/argo_dt/event_store.py:279-291 | the migration loop, over one twin, indexes the selected events from an empty edge table over the existing queue |
| `LineageHistory.SelectionLosesNothing` | src/argo_dt/event_store.py:279-291 | the event types that the migration skips contribute no edge and no row |
| `LineageHistory.RebuildIsIdentity` | src/argo_dt/event_store.py:218-305 | rebuilding a faithful index changes neither an edge, nor a stamp, nor a queue row, nor a processed mark |
| `LineageHistory.EveryIndexIsFaithful` | src/argo_dt/event_store.py:359-497 | every index reached by appends, marks and rebuilds is faithful to its ledger |
| `LineageHistory.ProcessedForever` | src/argo_dt/event_store.py:1059-1076 | a processed invalidation is never reset |
| `LineageHistory.FoldIsCovered` | src/argo_dt/event_store.py:388-457 | every citation and every source that a reachable state holds is an edge of the index at that point |
| `LineageHistory.DeletionQueuesCitations` | src/argo_dt/event_store.py:458-497 | every claim and link that the fold marks stale for citing deleted evidence is in that deletion's queue |
| `LineageHistory.DeletionQueuesProjections` | src/argo_dt/event_store.py:458-497 | so is every projection compiled from such a claim, exactly if its identifier is not empty |
| `LineageHistory.EmptyProjectionIdIsAccepted` | src/argo_dt/event_store.py:448-457 | an empty projection identifier is accepted by the fold and indexed by nothing |
| `Outbox.ClaimOldest` | src/argo_dt/event_store.py:751-842 | one claim leases the oldest claimable rows, up to the limit, raising each attempt by one, and hands out the matching tickets |
| `Outbox.EachAttemptIsHandedOutOnce` | src/argo_dt/event_store.py:779-806 | over any run of any relays and clocks, no two tickets of a row carry the same attempt |
| `Outbox.OnlyTheLatestTicketHolds` | src/argo_dt/event_store.py:844-883 | mark and release take effect only for the latest ticket of a row |
| `Outbox.PublishedOnceOrPending` | src/argo_dt/event_store.py:844-863 | an event is marked published at most once, and until then its row is pending |
| `Outbox.PublishedForever` | src/argo_dt/event_store.py:751-863 | a published row is never unmarked and never handed out again |
| `Outbox.ClaimRespectsLeases` | src/argo_dt/event_store.py:773-800 | no claim takes a published row or one whose lease is unexpired at the claimant's time |
| `EventStore.MatchingIsSlice` | src/argo_dt/event_store.py:593-619 | on a gap-free ledger a range query is a slice |
| `EventStore.AppendKeepsSound` | src/argo_dt/event_store.py:499-591 | every append keeps each ledger contiguous, linked and of unique keys, event identifiers unique, outbox rows of committed events only, and the index faithful to the ledger; ledgers with version-1 events included |
| `EventStore.EveryStoreIsSound` | src/argo_dt/event_store.py:499-591 | so does any interleaving of any writers, and ledgers only grow |
| `EventStore.HeldKeyAnswers` | src/argo_dt/event_store.py:508-532 | a held key answers with its event or refuses a different request, and changes nothing |
| `EventStore.RetryReturnsTheOriginal` | src/argo_dt/event_store.py:508-532 | whatever was written since, a store-level retry returns the original sealed event and changes nothing |
| `EventStore.OnlyOneWriterWins` | src/argo_dt/event_store.py:534-547 | of two different requests that expect the same head only one commits |
| `EventStore.AppendIsOutboxCommit` | src/argo_dt/event_store.py:343-357 | an append is one commit of a new outbox row, or no change at all |
| `Replay.SnapshotsSurviveGrowth` | src/argo_dt/event_store.py:647-749 | snapshots stay true of their prefix when ledgers grow |
| `Replay.SavingAReplayKeepsSound` | src/argo_dt/event_store.py:647-701 | saving the state of a full replay stores a true snapshot |
| `Replay.BeyondNewest` | src/argo_dt/event_store.py:734-749 | what pruning deletes are exactly the snapshots with at least `keep` newer ones |
| `Replay.SnapshotReplayIsFullReplay` | src/argo_dt/aggregate.py:655-701 | snapshot plus tail equals full replay, for any true snapshots, any pruning and any bound |
| `Replay.RecordedTimeReplay` | src/argo_dt/aggregate.py:655-701 | a rebuild as of a recorded time, bounded or not, folds exactly the events known by then and never starts from a snapshot |
| `Replay.KnownPrefixIsLongest` | src/argo_dt/aggregate.py:690-692 | what was known by a time is the longest prefix recorded by that time |
| `Store.SQLiteEventStore.Append` | src/argo_dt/event_store.py:499-591 | the transaction writes event, edges and outbox row together, returns the original for a retry, or changes nothing |
| `Store.SQLiteEventStore.Save` | src/argo_dt/event_store.py:647-701 | a snapshot is stored once, for a persisted position with its hash; saving it again returns the stored one if that verifies and agrees, and is refused otherwise |
| `Store.SQLiteEventStore.Prune` | src/argo_dt/event_store.py:734-749 | keeps the newest snapshots of the twin and every other twin's, returns how many it deleted, and refuses to keep none |
| `Store.SQLiteEventStore.Join` | src/argo_dt/event_store.py:807-842 | joins claimed rows to their events and verifies each, which cannot fail on a sound store |
| `Store.SQLiteEventStore.ClaimOutbox` | src/argo_dt/event_store.py:751-842 | claims a selection and joins each row to its verified event; a failed join leases nothing |
| `Store.SQLiteEventStore.MarkOutboxPublished` | src/argo_dt/event_store.py:844-863 | marks the row exactly if the ticket holds |
| `Store.SQLiteEventStore.ReleaseOutbox` | src/argo_dt/event_store.py:865-883 | releases the row exactly if the ticket holds |
| `Store.SQLiteEventStore.PruneOutbox` | src/argo_dt/event_store.py:892-909 | deletes the oldest rows published before the given time, as many as there are up to the limit, and returns their number |
| `Store.SQLiteEventStore.MigrateDependencyIndex` | src/argo_dt/event_store.py:218-305 | the loop over all twins drops and rebuilds every edge; on a sound store nothing changes |
| `ServiceLedger.UnpreviewedChangesNothing` | src/argo_dt/service.py:110-125 | an append away from the head repeats an earlier answer or is refused, and changes nothing |
| `ServiceLedger.PersistedFollowsPreview` | src/argo_dt/service.py:110-135 | the persisted event succeeds where its preview did, though recorded time and hash differ |
| `ServiceLedger.ReplaysIffPreviewed` | src/argo_dt/service.py:110-135 | an event extends a replayable ledger to a replayable one exactly if a preview there accepts it |
| `ServiceLedger.AppendBesideReplays` | src/argo_dt/service.py:109-137 | whatever state the preview saw and whatever others wrote between the reading of the head and the write, every ledger replays exactly if nothing was committed or the transition is accepted where it was; and always if no more than the head that was read is expected and the previewed state is the fold there |
| `ServiceLedger.SoleProcess` | src/argo_dt/service.py:109-125 | with nobody in between and the fold at hand, that is the append of a single process |
| `ServiceLedger.ExpectingAheadCanBreakReplay` | src/argo_dt/service.py:109-125 | that condition is needed: an append that expects a head ahead of the one that was read can make a ledger that does not replay |
| `Instances.ExpectingAheadBreaksReplay` | src/argo_dt/service.py:109-125 | and it does, from the empty database, with two processes |
| `Skips.MemoryStaysRightIffKeyIsNear` | src/argo_dt/service.py:109-133 | for a request that is new and accepted at the head that was read: whatever others write through the service, memory is right after the write, exactly if the key then is free or stands no further than right after that head |
| `Skips.NearKeyStaysRight` | src/argo_dt/service.py:125-133 | the sufficient half for any sound contents of the store |
| `Skips.SkippedEventsAreMissed` | src/argo_dt/service.py:126-133 | for every such request and every number of events in between, others can write so many events and then the request, and the advanced state stands at the head with its hash and is not the fold |
| `Skips.DegradationIsApart` | src/argo_dt/aggregate.py:646-649 | no payload is accepted or refused for the degradation, and only its own two payloads touch it |
| `Processes.LatestIsFold` | src/argo_dt/service.py:683-701 | as long as what is held is right, the state at the head as the process sees it is the fold |
| `Processes.NextIsRight` | src/argo_dt/service.py:126-133 | an admitted state advances to the fold if the answer is the very next event |
| `Processes.AdmittedAcceptsAnswer` | src/argo_dt/service.py:126-133 | the transition on the admitted state never fails, wherever the answer of the store stands |
| `Processes.WriteStaysRight` | src/argo_dt/service.py:125-133 | a write whose answer lands at most one beyond the head that was read keeps memory right and the ledger replayable |
| `Processes.RunStaysRight` | src/argo_dt/service.py:97-150 | over every run of any number of processes, each reading head, reading state and writing in separate steps, with evictions and crashes at any time, a twin's ledger replays and every process holds right states of it, as long as no answer for the twin lands more than one beyond the head that its caller read |
| `Processes.OneProcessStaysRight` | src/argo_dt/service.py:97-150 | in a run of one process that is always so |
| `Contention.SkippedEventHappens` | src/argo_dt/service.py:126-133 | from the empty database, step by step: a process is left with a state that stands at the head and is not the fold of the ledger, which replays |
| `Contention.SkippedEventBreaksReplay` | src/argo_dt/service.py:109-125 | its next append expects the very head that it reads, is previewed and commits, and the ledger no longer replays |
| `ServiceLedger.EveryServiceLedgerReplays` | src/argo_dt/service.py:97-150 | from any sound and replayable store, every ledger reachable through the service in one process replays to its end without an error |
| `ServiceLedger.ServiceRetry` | src/argo_dt/service.py:110-125 | a retry changes nothing, and returns the original exactly if its envelope is valid and of version 2, and it does not expect the head or would be accepted there again |
| `ServiceLedger.RetryAtHeadIsRefused` | src/argo_dt/service.py:110-125 | evidence cannot be ingested again at the head that its first ingestion made, while the same retry away from the head returns the original |
| `Service.ReplayInto` | src/argo_dt/aggregate.py:690-701 | the replay loop brings the object to the fold of the known prefix, or stops with the fold's error |
| `Service.RebuildState` | src/argo_dt/aggregate.py:655-701 | returns a fresh object holding what a rebuild yields |
| `Service.DigitalTwinService.CacheState` | src/argo_dt/service.py:703-709 | puts a state at the recent end and evicts the least recent beyond the limit |
| `Service.DigitalTwinService.LatestState` | src/argo_dt/service.py:683-701 | the cached object if its number and hash are the head's, otherwise a rebuilt one; with a cache of folds it is the fold of the whole ledger, and the cache stays one of folds and within its limit |
| `Service.DigitalTwinService.State` | src/argo_dt/service.py:659-677 | a fresh copy of the latest state, or of the fold up to the bound and the recorded time, restricted by the valid time, and no cached object |
| `Service.DigitalTwinService.AskedIsFold` | src/argo_dt/service.py:659-677 | with a cache of folds, every branch is the fold up to the bound and the recorded time |
| `Service.DigitalTwinService.StoreAppend` | src/argo_dt/service.py:125 | an append, also one by another process, leaves a cache of folds one of folds |
| `Service.DigitalTwinService.Preview` | src/argo_dt/service.py:114-124 | refuses a state that does not stand at the head that was read, and tries the transition on a deep copy of one that does |
| `Service.DigitalTwinService.TryTransition` | src/argo_dt/service.py:113-124 | does so on the latest state as the process sees it, for whatever the cache holds and whatever others wrote since the head was read |
| `Service.DigitalTwinService.Advance` | src/argo_dt/service.py:127-133 | applies the persisted event to the object in place and caches it, or drops the twin from the cache and raises |
| `Service.DigitalTwinService.Admit` | src/argo_dt/service.py:104-124 | the checks before a write, in order: envelope and plane, then the preview if the head that was read is the expected one; with the conflict on a head that has moved since |
| `Service.DigitalTwinService.BringAlong` | src/argo_dt/service.py:126-135 | an answer beyond the head that was read advances the admitted object and caches it, or drops the twin if the transition fails or nothing was admitted |
| `Service.DigitalTwinService.Persist` | src/argo_dt/service.py:125-149 | with other processes in between and for whatever the cache holds: what the store answers, and that the cache is then what the process model says, apart from evictions |
| `Service.DigitalTwinService.Append` | src/argo_dt/service.py:97-150 | for whatever the cache holds, ledgers, answer and cache are those of the process model; with a cache of folds, those of preview-then-append, and the cache stays one of folds |
| `Subscriptions.FilteredAscends` | src/argo_dt/sync.py:711-718 | the filtered events of a stretch are matching ledger events, strictly ascending |
| `Subscriptions.FilteredHolds` | src/argo_dt/sync.py:711-718 | an event is among them exactly if it is a matching ledger event of the stretch |
| `Subscriptions.PublishKeeps` | src/argo_dt/sync.py:572-591 | a publication, late, repeated or out of order, keeps the session invariant, and nothing beyond the horizon is lost |
| `Subscriptions.CursorAcceptedIffInChain` | src/argo_dt/sync.py:641-655 | a cursor is accepted exactly if it is a place in this chain |
| `Subscriptions.OpenEstablishes` | src/argo_dt/sync.py:637-665 | subscribing before reading the head establishes the invariant, whatever was appended and published in between |
| `Subscriptions.ConsumedKeeps` | src/argo_dt/sync.py:697-730 | every consumer step keeps the window exactly the filtered events after the acknowledged position |
| `Subscriptions.AcknowledgeKeeps` | src/argo_dt/sync.py:790-808 | an acknowledgement is accepted exactly for the acknowledged position or one in the window, never regresses, and keeps the window exact |
| `SyncRuns.RunKeeps` | src/argo_dt/sync.py:594-827 | over every interleaving of appends, broadcasts and client steps the invariant holds |
| `SyncRuns.DeliveryIsExact` | src/argo_dt/sync.py:697-788 | what a session handed out is exactly the matching events from its start to its position, in order and once each; with what was acknowledged in earlier sessions, exactly those since the first cursor |
| `SyncRuns.DeliveryAscends` | src/argo_dt/sync.py:760-788 | what was acknowledged in earlier sessions and then what this one hands out strictly ascends |
| `SyncRuns.EverySessionIsExact` | src/argo_dt/sync.py:637-788 | of all deliveries, unacknowledged ones included, each session of a run made exactly the matching events from where its predecessor was acknowledged up to its own position |
| `SyncRuns.HandedOutAgainIffUnacknowledged` | src/argo_dt/sync.py:790-827 | a later session hands an event out again exactly if it has come as far and the event was unacknowledged at every disconnect in between |
| `Redelivery.EventIsHandedOutTwice` | src/argo_dt/sync.py:790-827 | it happens: a run in which a client disconnects before it acknowledges, and is handed the same event again |
| `SyncRuns.QuietMeansComplete` | src/argo_dt/sync.py:637-665 | when all is broadcast and an attached consumer waits on an empty queue, it has received every matching event |
| `SyncRuns.WindowIsExact` | src/argo_dt/sync.py:697-730 | the outstanding window is exactly the unacknowledged deliveries and never longer than its limit |
| `SyncRuns.CursorNeverRegresses` | src/argo_dt/sync.py:790-808 | the acknowledged cursor never regresses, over any number of sessions |
| `SyncRuns.ResumeIsAccepted` | src/argo_dt/sync.py:637-665 | reconnecting at the acknowledged cursor is never refused |
| `Sync.Subscription.CloseQueue` | src/argo_dt/sync.py:449-456 | closing puts the sentinel last, dropping the oldest item of a full queue, and happens once |
| `Sync.Subscription.Get` | src/argo_dt/sync.py:434-447 | reading yields the oldest event, the end, or a wait, and advances the broker's filter with the event |
| `Sync.BoundedEventBroker.Subscribe` | src/argo_dt/sync.py:557-565 | adds a fresh, empty, attached subscription |
| `Sync.BoundedEventBroker.Unsubscribe` | src/argo_dt/sync.py:567-570 | detaches and closes one subscription |
| `Sync.BoundedEventBroker.PublishEvent` | src/argo_dt/sync.py:572-591 | each subscription of the twin gets the event once or is cut off as too slow, and others are untouched |
| `Sync.DurableSubscription.Open` | src/argo_dt/sync.py:625-668 | accepts a cursor exactly if it is in the chain, yields a valid session, and leaves no subscription behind otherwise |
| `Sync.DurableSubscription.CheckCursor` | src/argo_dt/sync.py:641-655 | the head and hash checks accept exactly the cursors in the chain |
| `Sync.DurableSubscription.NextCandidate` | src/argo_dt/sync.py:732-773 | ends on every queue and moves by exactly the next ledger event or not at all, losing nothing |
| `Sync.DurableSubscription.Advance` | src/argo_dt/sync.py:708-773 | hands out the next matching event, acknowledging excluded ones only from an empty window, and drops no queued event that is still to be delivered |
| `Sync.DurableSubscription.Next` | src/argo_dt/sync.py:697-724 | the whole iterator call is a consumer step of the run model, closing on a full window |
| `Sync.DurableSubscription.Resume` | src/argo_dt/sync.py:762-768 | so is the rest of a call whose reader had to wait |
| `Sync.DurableSubscription.AcknowledgeUpTo` | src/argo_dt/sync.py:790-808 | popping the window from its front is the cumulative acknowledgement |
| `Sync.DurableSubscription.Aclose` | src/argo_dt/sync.py:821-826 | closes once and leaves the broker |
| `Sync.DurableSubscription.OthersKeepValid` | src/argo_dt/sync.py:572-591 | appends and publications between two consumer steps leave the session valid |
| `Relay.OutboxRelay.Drain` | src/argo_dt/sync.py:517-539 | an undisturbed pass settles exactly the claimed rows, and each live queue receives exactly the accepted events of its twin, in order |
| `Relay.PublishedIsHeld` | src/argo_dt/sync.py:572-591 | whoever is still attached after a pass holds each accepted event of its twin beyond its filter |
| `Handoff.StepKeepsInv` | src/argo_dt/sync.py:517-591 | every step of writers, relays, broker or client keeps outbox, ledger and session sound, and each published or offered event of the twin in the broker |
| `Handoff.WritesAndOffersAreEnabled` | src/argo_dt/event_store.py:343-357 | the outbox refuses no write of the next event, and every ticket leads to an event of the ledger |
| `Handoff.PendingOrBroadcast` | src/argo_dt/sync.py:525-535 | since a relay marks a row only after offering its event, each committed event is pending or has reached the broker |
| `Handoff.HandedOutIffRead` | src/argo_dt/sync.py:697-724 | a matching event after the first cursor was handed out exactly if the session has read past it |
| `Handoff.NoEventIsLost` | src/argo_dt/sync.py:517-773 | over every run from the empty database, a matching event after an attached client's first cursor was handed out, or will be read from the ledger, or is pending in the outbox, or waits in the queue |
| `Handoff.DrainedMeansComplete` | src/argo_dt/sync.py:517-788 | when no row of the twin is pending, an attached consumer that waits on an empty queue has received every matching event |
| `Elicitation.GapDirectedElicitor.MakePlan` | src/argo_dt/epistemic.py:218-330 | the loops build the plan that the state yields, or refuse a blank objective or an unknown claim |
| `Elicitation.GapDirectedElicitor.VerifyPlan` | src/argo_dt/epistemic.py:332-350 | accepts exactly the verified plans |
| `Elicitation.PlanAsksExactlyAboutGaps` | src/argo_dt/epistemic.py:264-319 | a plan asks about a listed claim, a contradiction or a first claim exactly if the state shows that gap |
| `Elicitation.GapsAreDistinct` | src/argo_dt/epistemic.py:239-262 | no two gaps of a plan share an identifier |
| `Elicitation.PlanningIsIdempotent` | src/argo_dt/epistemic.py:218-330 | planning again for the claims that a plan lists gives the same plan, also after planning for all claims |
| `Elicitation.VerifiedIffDerivable` | src/argo_dt/epistemic.py:332-350 | a plan verifies exactly if the state yields it for all claims or for some named ones |
| `Elicitation.PlanVerifiesLater` | src/argo_dt/service.py:562-598 | a plan from the latest state verifies at every later time against the state rebuilt at its source sequence |
| `Compiler.CollectAccepted` | src/argo_dt/aggregate.py:204-235 | the loop returns the accepted, live, visible claims in order, or fails on the first that it cannot judge |
| `Compiler.Compile` | src/argo_dt/compiler.py:187-264 | the field loop builds the projection and its sources, or fails as one of its artifacts does |
| `Compiler.ArtifactIsRevealed` | src/argo_dt/compiler.py:65-156 | what an artifact discloses follows from the accepted and contested claims that its scope shows and the degradation, and whether it fails, from whether a claim cannot be read |
| `Compiler.LensDecidesAnswer` | src/argo_dt/compiler.py:187-264 | states with the same position and subject that show a request the same and raise alike compile to the same answer, errors included |
| `Compiler.NonInterference` | src/argo_dt/compiler.py:187-264 | two states that agree on the visible claims get the same answer exactly if the request is not served, or the compiler raises on an unreadable claim in both or in neither |
| `Instances.HiddenClaimCanInterfere` | src/argo_dt/aggregate.py:211-235 | the condition is needed: two replayable ledgers, wholly known by the requested time, that show a request the same, one answered and the other not |
| `Serving.AnswerDependsOnKnownEvents` | src/argo_dt/service.py:728-741 | an answer of the service depends on the events that were known by the requested recorded time alone |
| `Serving.KnownStays` | src/argo_dt/aggregate.py:690-692 | what was known by a time stays the same in a longer ledger, exactly if it was not all of the shorter one or the next event was recorded later |
| `Serving.ServedClaimsAreKnown` | src/argo_dt/service.py:728-737 | every claim in the state that an answer is compiled from was recorded by that time |
| `Compiler.ShownIffVisible` | src/argo_dt/aggregate.py:211-235 | a request is shown exactly the claims within its sensitivity, valid and recorded at its times, in the right review state; it fails on exactly the live ones that name no sensitivity level, or pass the limit and have no valid start |
| `Compiler.ProjectionDrawsOnVisibleClaims` | src/argo_dt/compiler.py:79-117 | every source of a projection is a visible accepted or contested claim that is not stale, and one that discloses the kernel draws on all visible accepted ones |
| `Telemetry.BatchAccountsForTheLedger` | src/argo_dt/adapters/telemetry.py:147-227 | one answer a record in order, and the ledger grows by exactly the committed ones with contiguous numbers |
| `Telemetry.RerunIsIdempotent` | src/argo_dt/adapters/telemetry.py:147-227 | running a batch with a valid header again appends nothing, and repeats every answer exactly if no preview-only rejection was followed by a commit |
| `Telemetry.RejectionThenCommitSpoils` | src/argo_dt/adapters/telemetry.py:182-202 | such a batch exists: known evidence under a new key, followed by a record that commits |
| `Telemetry.TelemetryBatchProcessor.IngestEvidence` | src/argo_dt/service.py:155-219 | a record becomes evidence through the service's append, unless the twin is bound to another subject |
| `Telemetry.TelemetryBatchProcessor.TakeRecord` | src/argo_dt/adapters/telemetry.py:150-219 | one turn of the loop threads expected number, block and answers as the batch transition says |
| `Telemetry.TelemetryBatchProcessor.Process` | src/argo_dt/adapters/telemetry.py:124-227 | the whole batch does so on the real service object, and an unexpected error ends it without an answer |
| `Tracing.Trace` | src/argo_dt/epistemic.py:77-117 | ordered ancestors and dependents at the state's position, and the present evidence behind the node by independence group, both in order; an empty root is refused |
| `Tracing.NamedNodesAreTraced` | src/argo_dt/epistemic.py:37-48 | no node of the index is nameless, so that the trace of a named node is never refused |
| `Tracing.TraceIsReproducible` | src/argo_dt/service.py:551-560 | a trace of a recorded state gives at every later head what it gave then |
| `Tracing.SupportIsTraced` | src/argo_dt/epistemic.py:95-107 | the trace of a live claim lists all of its cited evidence under the groups that the claim counts |

## Left out

- SQLite, WAL, file permissions, vacuum, the DDL, the producer-role migration and the rows of the version-1 dependency table; a transaction is one step over maps.
- HMAC, SHA-256, AES-GCM, base64 and JSON text, the signing and rotation of resume cursors, and the encrypted Bronze vault.
- The gRPC, WebSocket, NATS, observability and authentication adapters, simulation branches, conformance suites and public contracts.
- Authorization and policy: the ownership policy is not part of this model, and a projection takes the policy's decision as an argument.
- Task cancellation, timeouts, metrics, heartbeats and close frames; a stretch of a coroutine between two awaits is one step.
- Malformed payloads whose fields are absent or of the wrong type: a missing string is the empty identifier, and only a missing valid-time start or an unknown sensitivity is told apart.
- Storing a state in separate dictionaries: the fields of the state object are one record value, replaced field by field.
- Integrity failures of a broken chain inside a subscription: the methods are proved on sound stores, where those branches are unreachable.
- Sizes: batch byte limits, identifier lengths, and the truncation of stored error texts.
- LineageHistory.RebuildIndex: covers the rows of one twin; the loop over all twins is that of `Store.SQLiteEventStore.MigrateDependencyIndex`.
- Service.DigitalTwinService.Admit: does not check the ownership policy, as for the append.
- Service.DigitalTwinService.Persist: does not drain the outbox, as for the append.
- Service.DigitalTwinService.Append: does not check the ownership policy, which is not part of this model, and does not drain the outbox after the append; draining is modelled by the relay, whose steps may interleave anywhere.
- Relay.OutboxRelay.Drain: states one pass without another relay's step between its transactions; what interleaving can do is stated by the runs of `Outbox` and `Handoff`.
- Handoff.NoEventIsLost: follows one broker, to which every relay publishes; a relay that publishes to the broker of another process is not part of this model.
- Telemetry.TelemetryBatchProcessor.IngestEvidence: does not model authorization or the outbox drain, as for the service's append.
- Telemetry.TelemetryBatchProcessor.TakeRecord: does not model the error codes of rejections or the placeholder name of a record without identifier, because an acknowledgement tells only rejected from retryable.
- Telemetry.TelemetryBatchProcessor.Process: does not model the error codes of rejections, the placeholder name of a record without identifier, or the resume token.
- Compiler.Compile: does not model artifact identifiers and artifact hashes, which are fresh or functions of what is modelled.
- Elicitation.GapDirectedElicitor.MakePlan: prompts and rationales are terms of what their text mentions, because their wording carries no property.
