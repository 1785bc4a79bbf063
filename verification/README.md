# Durable Streams: a verified model

Durable Streams is a server for append-only streams of records, with forks, live
reads and subscriptions, and a client with an idempotent producer and a local journal.
This project models its hard core in Dafny and proves what it promises.
`dafny verify dfyconfig.toml` checks everything.

**Forking store.** `Streams` holds the entry types and the shared policy functions,
`Stores` the storage contract as a state machine over whole stores, `Lineage` the
recursive view of a fork and the flat read plan that computes it. `StoreInvariant`,
`StoreRuns` and `Tombstones` prove what every operation keeps, `SweepFate` what exactly a
sweep removes and leaves; `ForkStability` that a fork's reads do not depend on what happens
to other streams, `OrphanedRead` what is left of one when the fork itself is deleted, and
`Renewal` what its last step does to the deadline. `MemoryStorage` is the
in-memory backend as a class whose methods refine the state machine; `StoreAnswers`,
`CreationAnswers` and `ForkAnswers` say of every operation when it succeeds, which refusal it
meets otherwise, what it leaves behind, and that the offset it answers is one to resume from; `AcidRead` is the
transactional backend's read over an ordered table. `ByteReservation` is the global
byte counter under concurrency.

**Positions and live reads.** `Contiguity` relates offsets to record and byte counts,
`ControlOffsets` and `ControlExamples` the control offsets of server-sent events to both;
`LiveRead` interleaves a reader with
arbitrary store operations. `OffsetCodec` is the text form of offsets.

**Producers.** `ProducerRuns` is the server's side; `IdempotentProducer` the client's;
`ProducerProtocol` both over a lossy, duplicating network; `ProducerClose` what a close
means for what follows it, with concrete cases there and in `ProducerExamples`;
`ProducerTakeover` what a claim of the next epoch does to both producers.

**Subscriptions.** `Subscriptions` holds the control state and its transactions, `Glob`
the path matcher, `Fencing` and `Cursors` the properties of whole runs with crashes and
uncertain saves. `WakeOutcomes` says when each control request is accepted and what it leaves,
`TickOutcomes` what a tick hands out, `Redelivery` how a result is recorded and when a wake comes
again; `PathNames` which paths may be named. `SubscriptionService` is the service as a class over a clone-and-save
database, `Worker` the bounded delivery worker.

**Client journal and event streams.** `Journal`, `JournalRecovery` and `JournalCycles` are
the JSONL journal, its crash recovery, and repeated crashes, `JournalReplay` what replay makes of
any file. `Utf8`, `Sse` and `SseRoundTrip` are the event-stream printer and parser, `SseBlocks` the
parser on any stream.

## Where the code is not what one might expect

Each of these is stated with the exact condition under which the expected property holds.

- A tombstone can be unreferenced after a sweep, because the sweep decides from counts read
  before it began (`SweepFate.SweepStrandsIff`, `SweepFate.StrandedIsReachable`). It is expired,
  and the next sweep collects it (`Tombstones.NextSweepCollects`), unless a read of a fork with a
  sliding deadline was under way and renews it (`Renewal.RenewKeepsIff`,
  `Renewal.RevivalIsReachable`).
- The byte counter leaks when an append commits to a stream that has left the map but still passes
  the access check. There are exactly three ways to get one (`ByteReservation.OpenOrphanIff`): a
  hard delete of an open stream, a read of a fork with a sliding deadline that renews it, unchecked,
  after it was removed, and such a renewal between the gathering and the visit of a sweep. Without
  them the counter is exact (`ByteReservation.OnlyOpenOrphansLeak`); each of them leaks
  (`ByteReservation.DeleteDuringAppendLeaks`, `ByteReservation.RenewedOrphanLeaks`,
  `ByteReservation.RenewedWhileGatheredLeaks`).
- When a fork is deleted while a read of it is captured, the cascade may collect its source, and the
  reply then lacks the inherited records although it reports success (`OrphanedRead.CapturedReadIff`,
  `OrphanedRead.TruncatedReplyIsReachable`).
- A fork anchor is only checked against the source's tail. The fork's offsets are contiguous
  exactly when the anchor is a record boundary (`Contiguity.ForkContiguousIff`); away from one the
  subtractions behind its control offsets may underflow, and resuming may skip or repeat records,
  each under its own exact condition (`ControlOffsets.NeverUnderflowsIff`,
  `ControlOffsets.AlwaysResumesIff`). The two do not coincide: `ControlExamples` has reachable forks
  that underflow and fail to resume, that do neither, and that wrap around and still resume.
- A close-only producer append does not notify live readers (`LiveRead.CloseNotifiesIff`,
  `ProducerExamples.CloseWithoutNotice`).
- Producer state idle for seven days is forgotten, and then the first pair of an epoch passes the
  sequence check a second time (`ProducerRuns.ResubmissionAcceptedIff`,
  `ProducerExamples.IdledOutPairIsStoredTwice`).
- A producer's close does not advance its sequence number and the client keeps sending, so what it
  sends afterwards can be reported as a success without being stored
  (`ProducerClose.AnswerAfterCloseIff`, `ProducerClose.RecordsAgreeIff`,
  `ProducerClose.AcknowledgedButNotStored`).
- Reopening a journal keeps complete lines of an unfinished batch, and they hide every batch
  appended later (`JournalRecovery.AppendAfterCrashIff`, `JournalCycles.StuckFileReplays`,
  `JournalRecovery.StaleLineLosesNextBatch`). Clean crashes may follow each other without limit
  (`JournalCycles.CleanCyclesReplay`).
- A journal record that continues a complete batch past its own length makes replay drop that batch
  (`JournalReplay.ReplayIsLongestIff`, `JournalReplay.OverrunLosesBatch`); the journal itself never
  writes one.
- The printer writes `data:` without a space and the parser drops one leading space, so a line
  that starts with a space loses it (`SseRoundTrip.RoundTripIff`, `SseRoundTrip.LeadingSpaceIsLost`).

## Modelling decisions

- One clock reading per storage operation, not decreasing from one operation to the next; the code
  reads the clock several times. Times are unbounded integers, in seconds for streams and
  milliseconds for subscriptions.
- Storage operations and control transactions are atomic steps, as their locks make them, except
  where a property is about what happens in between: the two-phase read (`ForkStability`,
  `Renewal`), the byte reservation (`ByteReservation`), saves and crashes (`Fencing`), the network
  (`ProducerProtocol`).
- Byte offsets wrap at 64 bits as in a release build; read sequence numbers, reference counts, producer epochs and sequence numbers,
  local and batch sequence numbers and attempt counts are unbounded.
- Hash maps and ordered maps are Dafny maps. Where the code iterates over one, the model takes the
  order as a parameter or chooses arbitrarily, so the results hold for every order.
- Tokens are an injective function of subscription, generation and wake id; random wake ids are
  parameters. The JSON codec of the journal is a parameter that is only assumed to be lossless
  and to print one trimmed line. A request body is the sequence of records it parses to.
- Requests, save outcomes, delivery results and the answers of the execution boundary are
  parameters.

## Model

| member | source | states |
|---|---|---|
| `StoreRuns.ReachableStores` | crates/durable-streams-server/src/storage/memory.rs:131-150 | every store reached from the empty one by any timely run satisfies the whole invariant: sources exist, lineage is acyclic, each reference count is the number of forks, unreferenced tombstones are expired, anchors are within tails, and the byte counter is the sum of payloads within both limits |
| `StoreRuns.RunKeeps` | crates/durable-streams-server/src/storage/memory.rs:316-780 | any run of create, fork, append, producer append, read, delete, replace and sweep, at non-decreasing times, keeps that invariant from any store that has it |
| `StoreRuns.StepKeeps` | crates/durable-streams-server/src/storage/memory.rs:316-780 | one operation keeps the invariant, and every stream it does not name only continues: same fork link, same records, tail, closed flag and producers; a closed stream never grows; growth is always announced |
| `StoreRuns.AppendKeeps` | crates/durable-streams-server/src/storage/memory.rs:316-365 | a batch append keeps the invariant and extends one stream at its tail |
| `StoreRuns.ProducerAppendKeeps` | crates/durable-streams-server/src/storage/memory.rs:438-528 | a producer append keeps the invariant in its accepted, duplicate and refused outcomes |
| `StoreRuns.ReadKeeps` | crates/durable-streams-server/src/storage/memory.rs:367-393 | a read changes nothing but the renewed deadline |
| `StoreRuns.DeleteKeeps` | crates/durable-streams-server/src/storage/memory.rs:395-424 | delete as tombstone or as removal with cascade keeps the invariant |
| `StoreRuns.SweepStepKeeps` | crates/durable-streams-server/src/storage/memory.rs:633-660 | a sweep over counts gathered before it began keeps the invariant although the counts go stale on the way |
| `StoreRuns.CreateRootKeeps` | crates/durable-streams-server/src/storage/memory.rs:530-587 | creating a stream, also over an expired one, keeps the invariant |
| `StoreRuns.CreateForkKeeps` | crates/durable-streams-server/src/storage/memory.rs:692-780 | creating a fork, also over an expired path and also when the initial records do not fit, keeps the invariant |
| `StoreRuns.ReplaceKeeps` | crates/durable-streams-server/src/storage/memory.rs:589-618 | an in-place replacement keeps the invariant and no fork hangs off the replaced entry |
| `StoreRuns.RefusalChangesNothing` | crates/durable-streams-server/src/storage/memory.rs:316-365 | a refused append or replace leaves the store as it was; a refused producer append at most forgets idle producers |
| `StoreInvariant.CascadeKeeps` | crates/durable-streams-server/src/storage/memory.rs:205-230 | while one reference is owed to the parent, the upward walk repays it: the full invariant holds after it, its decrement never saturates, and surviving streams are untouched but for their counts |
| `StoreInvariant.CascadeSpares` | crates/durable-streams-server/src/storage/memory.rs:205-230 | the walk never collects an active stream or one it was not led to |
| `StoreInvariant.RemoveKeeps` | crates/durable-streams-server/src/storage/memory.rs:131-150 | removing an unreferenced stream, cascade included, restores the invariant |
| `StoreInvariant.DetachKeeps` | crates/durable-streams-server/src/storage/memory.rs:131-140 | taking a stream out of the map leaves exactly one owed reference, to its source |
| `StoreInvariant.ReleaseKeeps` | crates/durable-streams-server/src/storage/memory.rs:211-228 | dropping the owed reference of a surviving parent settles the debt |
| `Tombstones.StepReferenced` | crates/durable-streams-server/src/storage/fork.rs:217-240 | every operation except the sweep keeps tombstones only while they are referenced |
| `Tombstones.CascadeExact` | crates/durable-streams-server/src/storage/memory.rs:205-230 | the upward walk removes exactly the referenced tombstones all of whose forks go |
| `SweepFate.SweepRemovesIff` | crates/durable-streams-server/src/storage/memory.rs:633-660 | after a sweep exactly the streams predicted gone from the store before it and the order of visits are missing |
| `SweepFate.SweepStrandsIff` | crates/durable-streams-server/src/storage/memory.rs:633-660 | a sweep leaves a stream as an unreferenced tombstone if and only if it was active, is visited with forks counted, and every one of its forks is gone before that visit; all read off the store before the sweep |
| `SweepFate.StrandedIsReachable` | crates/durable-streams-server/src/storage/memory.rs:633-660 | from the empty store: create, fork, and a sweep that visits the fork first strands the source |
| `Tombstones.NextSweepCollects` | crates/durable-streams-server/src/storage/memory.rs:633-660 | in every reachable store the next sweep removes every stranded tombstone |
| `StoreAnswers.GateRefuses` | crates/durable-streams-server/src/storage/fork.rs:16-32 | a read, an append and a producer append of a stored stream answer gone for a tombstone, otherwise expired if and only if a deadline has been reached, and a refusal for either reason leaves the store as it was |
| `StoreAnswers.MissingRefused` | crates/durable-streams-server/src/storage/memory.rs:316-330 | a missing stream is not found, and an empty batch that does not close is refused first |
| `StoreAnswers.ReadAnswers` | crates/durable-streams-server/src/storage/memory.rs:367-393 | a successful read returns the view from the requested position, the tail and the flag, and moves nothing but a sliding deadline, to one full period from now |
| `StoreAnswers.AppendRefusals` | crates/durable-streams-server/src/storage/memory.rs:326-354 | on an accessible stream the first of these that applies is the answer and nothing changes: closed, other content type, label not beyond the stored one, deadline out of range, store full, stream full; without any of them the append succeeds |
| `StoreAnswers.SequenceCheck` | crates/durable-streams-server/src/storage/shared.rs:64-76 | the ordering violation is answered if and only if both labels are there, the new one does not come after the stored one, and no earlier refusal applies; a label is kept as sent, or the old one stays |
| `StoreAnswers.AppendAnswers` | crates/durable-streams-server/src/storage/memory.rs:350-364 | the answer names the tail before, the tail after and the flag after; the records are at the end, the closed flag, the label and the deadline are as said, and nothing else differs |
| `StoreAnswers.AppendReadsBack` | crates/durable-streams-server/src/storage/memory.rs:360-364 | reading from the answered start returns exactly the records, and from the answered next offset nothing |
| `StoreAnswers.ProducerRefusals` | crates/durable-streams-server/src/storage/shared.rs:241-291 | how a producer request is refused: fenced, duplicate, closed, a later epoch that does not start at zero, a gap with the number expected, then what refuses any append; each if and only if |
| `StoreAnswers.ProducerAnswers` | crates/durable-streams-server/src/storage/memory.rs:487-528 | an accepted request: its pair and the tail are answered, the records are stored, the pair and the time are remembered, idle producers are forgotten |
| `StoreAnswers.ProducerReadsBack` | crates/durable-streams-server/src/storage/memory.rs:500-528 | reading from the tail before returns exactly the records, and from the answered offset nothing |
| `CreationAnswers.CreateRefusals` | crates/durable-streams-server/src/storage/fork.rs:130-154 | when creation is refused, finds the stream already there, or makes it anew, over an expired unreferenced one too |
| `CreationAnswers.CreateAnswers` | crates/durable-streams-server/src/storage/memory.rs:530-587 | the new stream: the records from offset zero, the flag asked for, the deadline counted from now, and nothing of an older life; the answer is its tail and its flag |
| `CreationAnswers.CreateReadsBack` | crates/durable-streams-server/src/storage/memory.rs:530-587 | reading the new stream from its start returns exactly the records, and from the answered offset nothing |
| `CreationAnswers.ExistingAnswers` | crates/durable-streams-server/src/storage/memory.rs:545-555 | creating what is already there changes nothing and reports its tail and flag |
| `CreationAnswers.ReplaceRefusals` | crates/durable-streams-server/src/storage/fork.rs:369-375 | a replacement is refused if and only if the options are malformed, the stream is missing, it has forks or is one, or the records do not fit |
| `CreationAnswers.ReplaceAnswers` | crates/durable-streams-server/src/storage/memory.rs:589-618 | the replaced stream holds and reads back exactly the new records from offset zero; the counter gives up the old bytes |
| `CreationAnswers.DeleteAnswers` | crates/durable-streams-server/src/storage/memory.rs:395-424 | not found, gone, a tombstone that keeps its records when forks are counted, removal otherwise; which of these, if and only if |
| `ForkAnswers.PrefixIsUnique` | crates/durable-streams-server/src/storage/fork.rs:334-366 | the first n records of a JSON source, or the first n bytes of its first record otherwise, are one thing |
| `ForkAnswers.ForkRefusals` | crates/durable-streams-server/src/storage/fork.rs:156-179 | the refusals before the body is looked at, in order: malformed options, missing source, tombstone, expired source, offset beyond the tail, other content type, inherited period out of range |
| `ForkAnswers.ForkDecides` | crates/durable-streams-server/src/storage/fork.rs:334-366 | then: a sub-offset beyond what the source holds from the anchor, a body that does not parse, and what stands at the path |
| `ForkAnswers.ForkAnswersWith` | crates/durable-streams-server/src/storage/memory.rs:733-780 | the new entry anchored as asked, its expiry taken from the request or inherited in the order of priority, its local records a prefix of the source data from the anchor followed by the body; one more reference on the source |
| `ForkAnswers.ForkReadsBack` | crates/durable-streams-server/src/storage/memory.rs:692-780 | reading the new fork from its start returns the source below the anchor, then the first n records or bytes of what the source holds from there, then the body; from the answered offset nothing |
| `MemoryStorage.InMemoryStorage.ReserveBytes` | crates/durable-streams-server/src/storage/shared.rs:337-344 | reserves exactly when the sum stays within the limit |
| `StoreInvariant.ReleasedWasCounted` | crates/durable-streams-server/src/storage/shared.rs:347-351 | what a stream gives back on removal was counted, so the saturating release undoes the reservations exactly and leaves the payload of the others |
| `MemoryStorage.InMemoryStorage.CommitMessages` | crates/durable-streams-server/src/storage/memory.rs:279-312 | all records stamped with consecutive positions, or nothing and the reservation returned; the global limit is checked before the stream limit |
| `MemoryStorage.InMemoryStorage.HardRemove` | crates/durable-streams-server/src/storage/memory.rs:131-140 | the entry leaves the map and its bytes leave the counter |
| `MemoryStorage.InMemoryStorage.CascadeDelete` | crates/durable-streams-server/src/storage/memory.rs:205-230 | the in-place loop computes the recursive cascade |
| `MemoryStorage.InMemoryStorage.RemoveForRecreate` | crates/durable-streams-server/src/storage/memory.rs:142-150 | removal followed by the cascade |
| `MemoryStorage.InMemoryStorage.DeleteStream` | crates/durable-streams-server/src/storage/memory.rs:395-424 | delete, its two dispositions and its two errors, keeping the invariant |
| `MemoryStorage.InMemoryStorage.GatherExpired` | crates/durable-streams-server/src/storage/memory.rs:635-642 | finds every expired stream exactly once with its current count |
| `MemoryStorage.InMemoryStorage.CleanupExpired` | crates/durable-streams-server/src/storage/memory.rs:633-660 | the sweep loop refines the sweep of the state machine |
| `MemoryStorage.InMemoryStorage.ReadSourceChain` | crates/durable-streams-server/src/storage/memory.rs:238-273 | reads the inherited part of a view through the flat plan and the binary searches |
| `MemoryStorage.InMemoryStorage.ReadLocal` | crates/durable-streams-server/src/storage/memory.rs:182-199 | the local slice is the selection by offset |
| `MemoryStorage.InMemoryStorage.ReadStream` | crates/durable-streams-server/src/storage/memory.rs:367-393 | run as one step, returns exactly the recursive view from the requested position, with tail and closed flag, and renews the deadline |
| `Renewal.ReadInSteps` | crates/durable-streams-server/src/storage/memory.rs:367-393 | run in its steps, with anything between capture and renewal: the reply is the view at capture, the renewal touches nothing but the deadline, and the invariant holds afterwards if and only if the stream was not stranded meanwhile |
| `Renewal.RenewKeepsIff` | crates/durable-streams-server/src/storage/fork.rs:245-252 | the unchecked renewal keeps the invariant if and only if it does not give an unreferenced tombstone a deadline still to come |
| `Renewal.RevivalIsReachable` | crates/durable-streams-server/src/storage/memory.rs:384-391 | from the empty store: a read captured before a sweep that strands the stream, renewed after it, breaks the invariant |
| `MemoryStorage.InMemoryStorage.Append` | crates/durable-streams-server/src/storage/memory.rs:316-365 | refines the batch append, every refusal included |
| `MemoryStorage.InMemoryStorage.AppendFromProducer` | crates/durable-streams-server/src/storage/memory.rs:438-528 | refines the producer append: prune, content type, sequence check, commit, record |
| `MemoryStorage.InMemoryStorage.AcceptRecords` | crates/durable-streams-server/src/storage/memory.rs:487-528 | the mutation half of a producer append, all or nothing |
| `MemoryStorage.InMemoryStorage.Create` | crates/durable-streams-server/src/storage/memory.rs:530-587 | refines stream creation |
| `MemoryStorage.InMemoryStorage.ReplaceStream` | crates/durable-streams-server/src/storage/memory.rs:589-618 | refines replacement: staged bytes are reserved before the old ones are released |
| `MemoryStorage.InMemoryStorage.CreateForked` | crates/durable-streams-server/src/storage/memory.rs:692-780 | refines fork creation up to placement, reading the source view for a sub-offset |
| `MemoryStorage.InMemoryStorage.PlaceForked` | crates/durable-streams-server/src/storage/memory.rs:733-780 | places the fork, its initial records and the reference on its source |
| `Lineage.PlanReadsView` | crates/durable-streams-server/src/storage/fork.rs:269-312 | reading the flat plan under its running bounds is reading the recursive view, for every catalog, stream, position and bound |
| `Lineage.BuildReadPlan` | crates/durable-streams-server/src/storage/fork.rs:269-312 | the two loops build exactly the recursive plan, and terminate because lineage is acyclic |
| `Lineage.ChildBounds` | crates/durable-streams-server/src/storage/fork.rs:286-302 | root first, each segment takes the fork point of the stream forked directly off it |
| `Lineage.RunningMinima` | crates/durable-streams-server/src/storage/fork.rs:304-311 | the backward loop leaves each segment bounded by the least fork point at or below it |
| `Lineage.CappedPlan` | crates/durable-streams-server/src/storage/fork.rs:269-312 | capping each segment afterwards equals planning under the cap |
| `Lineage.MessageRange` | crates/durable-streams-server/src/storage/fork.rs:316-331 | the two binary searches delimit exactly the records in range |
| `Lineage.PartitionPoint` | crates/durable-streams-server/src/storage/fork.rs:316-331 | binary search on ordered positions finds the first record not below the bound |
| `AcidRead.ReadSnapshot` | crates/durable-streams-server/src/storage/acid/mod.rs:422-465 | the transactional read over the ordered table returns the same view as the memory path |
| `AcidRead.ReadMessageRanges` | crates/durable-streams-server/src/storage/acid/mod.rs:467-496 | segment after segment, the scans concatenate to the plan read |
| `AcidRead.ScanRows` | crates/durable-streams-server/src/storage/acid/mod.rs:482-493 | the row loop with its early break collects exactly the rows below the bound |
| `AcidRead.ScanIsSelect` | crates/durable-streams-server/src/storage/acid/mod.rs:474-494 | stopping at the first row past the bound loses nothing, because rows are ordered |
| `AcidRead.RangeIsSelect` | crates/durable-streams-server/src/storage/acid/mod.rs:467-496 | the key range of the table is the selection by offset |
| `ForkStability.InheritanceIsStable` | crates/durable-streams-server/src/storage/fork.rs:105-119 | over any run that leaves the fork in the map, what it inherits never changes |
| `ForkStability.ReadsAreStable` | crates/durable-streams-server/src/storage/memory.rs:238-273 | over any run of operations on other streams (append, delete, sweep, re-create, replace) every read of the fork returns the same records, tail and closed flag |
| `ForkStability.TwoPhaseReadIsAtomic` | crates/durable-streams-server/src/storage/memory.rs:153-179 | a read captured now and finished after any run that keeps the fork equals the read at capture time |
| `ForkStability.FinishMatchesView` | crates/durable-streams-server/src/storage/shared.rs:303-322 | local snapshot plus bounded source chain is the view |
| `OrphanedRead.CapturedReadIff` | crates/durable-streams-server/src/storage/memory.rs:238-273 | a captured read finished after any run, the fork deleted or not: exact while the source stayed; once the source is gone, exact if and only if nothing inherited was asked for |
| `OrphanedRead.FinishedIff` | crates/durable-streams-server/src/storage/shared.rs:303-322 | against any later catalog the reply is the captured view if and only if the requested inherited records are the same |
| `OrphanedRead.TruncatedReplyIsReachable` | crates/durable-streams-server/src/storage/memory.rs:255-258 | a reachable read whose fork is deleted in between and whose reply has lost its only record |
| `ByteReservation.RunAccounts` | crates/durable-streams-server/src/storage/shared.rs:337-352 | in every interleaving of lookups, access checks, reservations, commits, expiries, deletes, sweeps, cascades, replacements and late renewals the counter is live payload plus outstanding reservations plus bytes committed to streams already out of the map, and neither limit is passed |
| `ByteReservation.ExactIff` | crates/durable-streams-server/src/storage/memory.rs:126-140 | the counter is exactly live payload plus reservations if and only if no bytes were committed to a stream that had left the map |
| `ByteReservation.OnlyOpenOrphansLeak` | crates/durable-streams-server/src/storage/memory.rs:330-340 | the counter is exact after every run in which no stream that still passes the access check is out of the map: none deleted while open, none removed after a renewal since it was gathered, none renewed after it was removed |
| `ByteReservation.OpenOrphanIff` | crates/durable-streams-server/src/storage/memory.rs:384-391 | a step leaves such a stream out of the map if and only if it was there before and did not just expire, or the step is one of those three |
| `ByteReservation.OpenOrphanLeaks` | crates/durable-streams-server/src/storage/memory.rs:279-312 | an append that holds one leaks whatever it commits |
| `ByteReservation.RenewedOrphanLeaks` | crates/durable-streams-server/src/storage/memory.rs:384-391 | a concrete run without any delete: a captured read renews the stream after the sweep removed it, and an append commits |
| `ByteReservation.RenewedWhileGatheredLeaks` | crates/durable-streams-server/src/storage/memory.rs:635-657 | a concrete run where the renewal lands between the gathering and the visit of the sweep |
| `ByteReservation.DeleteDuringAppendLeaks` | crates/durable-streams-server/src/storage/memory.rs:326-354 | a concrete run: look up, delete, commit; the counter keeps bytes no stream holds |
| `ByteReservation.ReleaseNeverSaturates` | crates/durable-streams-server/src/storage/shared.rs:347-351 | what is released was counted before |
| `Contiguity.ForkContiguousIff` | crates/durable-streams-server/src/storage/fork.rs:105-119 | over a contiguous source a fork is contiguous if and only if its anchor is a record boundary of the source view |
| `Contiguity.RunContiguous` | crates/durable-streams-server/src/storage/memory.rs:279-305 | in every run whose forks are anchored at boundaries, the k-th record of every view is at (k, bytes before it), through any chain of forks and sub-offset prefixes |
| `Contiguity.StepContiguous` | crates/durable-streams-server/src/storage/memory.rs:756-770 | one operation keeps every view contiguous |
| `ControlOffsets.EncodeFrames` | crates/durable-streams-server/src/handlers/get.rs:273-305 | a JSON or empty read is one frame at the tail; otherwise each record gets a frame whose control offset is the tail less what is still to come, as 64-bit subtraction computes it |
| `ControlOffsets.ControlOffsetsResume` | crates/durable-streams-server/src/handlers/get.rs:273-305 | on a contiguous stream no control offset underflows and resuming from any of them returns exactly the remaining records |
| `ControlOffsets.NeverUnderflowsIff` | crates/durable-streams-server/src/handlers/get.rs:273-305 | for a fork over a contiguous source no control offset of any read underflows if and only if nothing is inherited or the byte offset of the anchor covers the inherited records after the first |
| `ControlOffsets.AlwaysResumesIff` | crates/durable-streams-server/src/handlers/get.rs:273-305 | every control offset of every read, wrapped ones included, resumes exactly if and only if nothing is inherited, or the anchor stands at the count of the inherited records and covers all but the first, or stands one before it and after each record either wraps or follows a long enough one |
| `ControlOffsets.AlwaysResumesCleanlyIff` | crates/durable-streams-server/src/handlers/get.rs:273-305 | every control offset is free of underflow and resumes exactly, under its own exact condition |
| `ControlOffsets.UnderflowsIff` | crates/durable-streams-server/src/handlers/get.rs:273-305 | in any such read only the byte subtraction can underflow, and only before the last inherited record |
| `ControlExamples.ForkedIsReachable` | crates/durable-streams-server/src/storage/fork.rs:105-119 | forking a fresh source at any accepted anchor is a run from the empty store |
| `ControlExamples.MisanchoredForkUnderflows` | crates/durable-streams-server/src/storage/fork.rs:105-119 | a reachable fork whose control offset underflows and does not resume |
| `ControlExamples.MisanchoredForkResumes` | crates/durable-streams-server/src/storage/fork.rs:105-119 | a reachable fork off any boundary whose control offsets neither underflow nor fail to resume |
| `ControlExamples.WrappedOffsetResumes` | crates/durable-streams-server/src/storage/fork.rs:105-119 | a reachable fork whose control offset wraps around and still resumes exactly |
| `LiveRead.LiveReadsAreGapless` | crates/durable-streams-server/src/handlers/get.rs:310-402 | at every point of every interleaving the emitted records are a gapless, duplicate-free prefix of the stream from its start; a blocked reader with no pending notification, or one finished by a close, has emitted all of it |
| `LiveRead.NextKeeps` | crates/durable-streams-server/src/handlers/get.rs:310-402 | each transition of reader or store keeps the reader invariant |
| `LiveRead.CloseNotifiesIff` | crates/durable-streams-server/src/storage/memory.rs:500-504 | the step that closes a stream notifies its readers if and only if it is not a close-only producer append |
| `ProducerRuns.RunLogged` | crates/durable-streams-server/src/storage/shared.rs:241-291 | in every run the accepted pairs of a producer form a chain that ends at the stored state |
| `ProducerRuns.ChainedIncreases` | crates/durable-streams-server/src/storage/shared.rs:241-291 | accepted pairs strictly increase lexicographically |
| `ProducerRuns.ChainedHasNoGaps` | crates/durable-streams-server/src/storage/shared.rs:241-291 | the sequences accepted in an epoch are 0, 1, 2, ... without a gap |
| `ProducerRuns.ResubmissionIsHarmless` | crates/durable-streams-server/src/storage/memory.rs:438-475 | sending an accepted pair again is answered as duplicate or fenced and changes neither records, tail, closed flag nor bytes, on a closed stream too |
| `ProducerRuns.ResubmissionAcceptedIff` | crates/durable-streams-server/src/storage/shared.rs:83-88 | an accepted pair passes the check again if and only if its state idled out, it is the first of an epoch and the stream is open |
| `ProducerProtocol.ExactlyOnce` | crates/durable-streams-client/src/idempotent.rs:140-160 | over a network that loses, delays and duplicates, with appends, closes and any other traffic, the work stored for the producer is what was acknowledged up to and including its close, in order, plus at most the one piece in flight before that, each body unbroken among the messages; the epoch never moves and nothing is ever fenced or out of sequence |
| `ProducerProtocol.RequestIsHandled` | crates/durable-streams-server/src/storage/shared.rs:185-213 | what one delivery does to the messages and to the stored producer state, in every outcome |
| `ProducerProtocol.CheckIsClean` | crates/durable-streams-server/src/storage/shared.rs:241-291 | the sequence check answers every request ever sent with accept, duplicate or stream closed |
| `ProducerProtocol.ReceiveIsSafe` | crates/durable-streams-client/src/idempotent.rs:307-349 | a success acknowledges exactly the pending work, and the epoch claim never fires |
| `ProducerClose.AnswerAfterCloseIff` | crates/durable-streams-server/src/storage/shared.rs:241-291 | on a stream closed at (epoch, q) any further request of the epoch, with any body, is answered as a success if and only if its sequence is at most q, as closed otherwise, and stores nothing |
| `ProducerClose.CloseClosesAt` | crates/durable-streams-server/src/storage/memory.rs:500-520 | an accepted close with any body closes the stream at its own sequence number |
| `ProducerClose.RecordsAgreeIff` | crates/durable-streams-client/src/idempotent.rs:223-277 | after every run the stored records agree with the acknowledged ones if and only if nothing with a non-empty body was acknowledged after the close |
| `ProducerClose.AcknowledgedButNotStored` | crates/durable-streams-client/src/idempotent.rs:223-277 | a concrete run: close, acknowledge, append, acknowledge, and the appended record is nowhere |
| `ProducerExamples.IdledOutPairIsStoredTwice` | crates/durable-streams-server/src/storage/shared.rs:83-88 | a concrete pair accepted and stored again seven days later |
| `ProducerExamples.CloseWithoutNotice` | crates/durable-streams-server/src/storage/memory.rs:500-504 | a concrete close-only producer append that closes the stream without a notification |
| `ProducerTakeover.FencedIff` | crates/durable-streams-server/src/storage/shared.rs:241-291 | a request is fenced if and only if a later epoch is known, and the answer names that epoch |
| `ProducerTakeover.ClaimIsInSequence` | crates/durable-streams-client/src/idempotent.rs:307-349 | the request a fenced client sends after its claim is never fenced and never out of sequence: it is accepted unless the stream is closed or full by then |
| `ProducerTakeover.TakeoverFences` | crates/durable-streams-server/src/storage/shared.rs:241-291 | once a claim was accepted every request of an earlier epoch is answered as fenced by the new one, and stores nothing |
| `ProducerTakeover.ClaimsOnce` | crates/durable-streams-client/src/idempotent.rs:307-349 | a fenced exchange claims and sends again exactly once; fenced again, or closing a closed client, it gives up with everything as it was |
| `IdempotentProducer.Producer.SendWithState` | crates/durable-streams-client/src/idempotent.rs:307-349 | the request loop of appends and closes sends once, or twice when it claims a new epoch, and moves the state only by the claim |
| `IdempotentProducer.Producer.Append` | crates/durable-streams-client/src/idempotent.rs:140-160 | the sequence number advances exactly on success |
| `IdempotentProducer.Producer.Close` | crates/durable-streams-client/src/idempotent.rs:223-277 | the first success marks the producer closed without moving the sequence number; a later close takes a conflict for success and changes nothing |
| `Fencing.EveryRunIsFenced` | crates/durable-streams-server/src/subscriptions/mod.rs:174-182 | in every run of requests, ticks, delivery results, lost or unacknowledged saves and restarts: one wake id per generation ever current, and strictly increasing generations of one subscription's successful claims |
| `Fencing.RunKeeps` | crates/durable-streams-server/src/subscriptions/mod.rs:174-261 | the fencing invariant over memory, disk, wake history and claims holds along every run |
| `Fencing.GenerationsNeverDecrease` | crates/durable-streams-server/src/subscriptions/mod.rs:222-261 | a generation never decreases, restarts included |
| `Fencing.CursorsNeverDecrease` | crates/durable-streams-server/src/subscriptions/api.rs:83-89 | an acknowledged offset never moves back while its link lives |
| `Fencing.AcceptedTokensAdvance` | crates/durable-streams-server/src/subscriptions/api.rs:43-61 | a token accepted after any further run, restarts included, is the one accepted before or belongs to a later generation; at one moment there is only one |
| `Fencing.ClearedWakeIsFenced` | crates/durable-streams-server/src/subscriptions/api.rs:43-61 | once a wake is cleared, whatever runs afterwards, no callback, acknowledgement, release or delivery result for it changes any state |
| `Fencing.ControlProposes` | crates/durable-streams-server/src/subscriptions/api.rs:133-233 | a control transaction proposes a database in which every subscription is kept or one step further |
| `Fencing.TickProposes` | crates/durable-streams-server/src/subscriptions/worker.rs:117-176 | so does a tick |
| `Fencing.FinishProposes` | crates/durable-streams-server/src/subscriptions/worker.rs:207-247 | so does a delivery result |
| `Fencing.ClaimEvolves` | crates/durable-streams-server/src/subscriptions/api.rs:235-288 | a successful claim takes an unheld wake or issues the next generation |
| `Cursors.CursorsStayWithin` | crates/durable-streams-server/src/subscriptions/api.rs:62-96 | while tails only grow, no cursor in memory or on disk passes its stream's tail |
| `Cursors.BatchIsAllOrNothing` | crates/durable-streams-server/src/subscriptions/api.rs:62-89 | a refused batch changes nothing; an accepted one had every acknowledgement valid and moves each cursor to the greatest of itself and its acknowledgements |
| `Cursors.BatchApplies` | crates/durable-streams-server/src/subscriptions/api.rs:83-89 | each cursor ends at the greatest of itself and its acknowledgements |
| `Cursors.DoneLeavesLaterRecordsPending` | crates/durable-streams-server/src/subscriptions/worker.rs:224-236 | a delivery answered done acknowledges only the snapshot tails, so later records leave the subscription pending |
| `Cursors.LaterRecordsAreWoken` | crates/durable-streams-server/src/subscriptions/worker.rs:130-136 | after a saved done and any run, restarts and uncertain saves included, that neither unlinks nor acknowledges a later record, the next saved tick leaves the subscription with a wake of a later generation |
| `Cursors.NextTickReports` | crates/durable-streams-server/src/subscriptions/worker.rs:130-136 | a tick right after done issues the next generation, whose snapshot reports the stream as pending at its tail |
| `Cursors.TickWakesEveryone` | crates/durable-streams-server/src/subscriptions/worker.rs:130-136 | after a successful tick every visited live subscription with pending work has a wake |
| `Cursors.NeverLinkedToOwnWakes` | crates/durable-streams-server/src/subscriptions/model.rs:41-99 | in every run no pull-wake subscription is linked to its own wake stream |
| `Cursors.OwnWakesAreInvisible` | crates/durable-streams-server/src/subscriptions/mod.rs:263-265 | hence its own wake publications never make it pending |
| `WakeOutcomes.BehindIff` | crates/durable-streams-server/src/subscriptions/mod.rs:263-265 | work is pending if and only if some linked stream has a tail past its cursor |
| `WakeOutcomes.ReconcileOutcome` | crates/durable-streams-server/src/subscriptions/mod.rs:201-220 | reconciliation links newly matching streams from zero and drops a wake if and only if its lease is over and no failed delivery is being retried under it |
| `WakeOutcomes.MissingOutcome` | crates/durable-streams-server/src/subscriptions/api.rs:150-233 | a request is answered as missing exactly for an absent or deleted subscription, or a claim on a webhook |
| `WakeOutcomes.CompletionAnswers` | crates/durable-streams-server/src/subscriptions/api.rs:43-80 | fenced if and only if the call is not of the right kind for the live wake, named in full with its token, before the lease is over; invalid if and only if some offset is malformed, not linked, behind the cursor or past the tail |
| `WakeOutcomes.CompletionOutcome` | crates/durable-streams-server/src/subscriptions/api.rs:82-104 | an accepted release has no wake left and cursors as reconciliation left them; so has a finished callback or acknowledgement but for its cursors; an unfinished one keeps wake, holder and token with the lease one full period from now |
| `WakeOutcomes.ReleasedIsClaimable` | crates/durable-streams-server/src/subscriptions/api.rs:90-93 | after a release the next claim is never turned away as already claimed |
| `WakeOutcomes.ClaimAnswers` | crates/durable-streams-server/src/subscriptions/api.rs:235-275 | each refusal of a claim with its exact condition: bad worker name, held by whom at which generation, nothing pending, generations used up |
| `WakeOutcomes.ClaimOutcome` | crates/durable-streams-server/src/subscriptions/api.rs:260-288 | the worker holds the wake that was there, or the next generation with a report of every linked stream, under a token and a lease one full period from now |
| `PathNames.ValidPathIff` | crates/durable-streams-server/src/subscriptions/model.rs:101-116 | a path is valid if and only if it is the join of one to sixty-four good segments, the first not the reserved one, without control characters, of at most 1024 bytes |
| `WakeOutcomes.AddOutcome` | crates/durable-streams-server/src/subscriptions/api.rs:290-317 | refused exactly for an invalid path or the own wake stream; otherwise the paths are linked explicitly, new ones from their tails |
| `WakeOutcomes.RemoveOutcome` | crates/durable-streams-server/src/subscriptions/api.rs:201-212 | a path the pattern covers only loses its explicit mark, any other its link |
| `WakeOutcomes.SoundConfigIff` | crates/durable-streams-server/src/subscriptions/model.rs:41-94 | a configuration is refused if and only if it violates one of the stated rules |
| `WakeOutcomes.CreateAnswers` | crates/durable-streams-server/src/subscriptions/api.rs:319-360 | each answer of creation with its exact condition |
| `WakeOutcomes.CreateOutcome` | crates/durable-streams-server/src/subscriptions/api.rs:361-384 | a new subscription is linked at the present tails and has nothing to do |
| `TickOutcomes.TickAnswers` | crates/durable-streams-server/src/subscriptions/worker.rs:127-133 | a tick fails if and only if a visited subscription needs a wake and has used up its generations |
| `TickOutcomes.TickOutcome` | crates/durable-streams-server/src/subscriptions/worker.rs:127-179 | a visited subscription with work and no wake gets the next generation; a waiting webhook is handed out with a fresh lease and a retry in six seconds, unless all sixteen places are taken, and then nobody after it is served; a waiting pull wake is published if and only if it reports work; nothing else is handed out |
| `TickOutcomes.TickLeaves` | crates/durable-streams-server/src/subscriptions/worker.rs:127-129 | what is not visited is as reconciliation left it, and nothing of it is handed out |
| `TickOutcomes.NewWakeIsHandedOut` | crates/durable-streams-server/src/subscriptions/worker.rs:130-147 | a wake issued by a tick is handed out by the same tick while there is room |
| `Redelivery.FinishOutcome` | crates/durable-streams-server/src/subscriptions/worker.rs:207-247 | a stale result changes nothing; a failure postpones by a backoff doubled from one second to at most a minute, with jitter; a success delivers, and done acknowledges what the wake reported and clears it |
| `Redelivery.RepublishedIff` | crates/durable-streams-server/src/subscriptions/worker.rs:183-202 | a published wake is published again by a later tick if and only if the append had failed and a second has passed |
| `Redelivery.RedeliveredIff` | crates/durable-streams-server/src/subscriptions/worker.rs:140-178 | a webhook delivery without a result is handed out again from six seconds on, while its lease lasts and as soon as there is room |
| `Redelivery.RetriedIff` | crates/durable-streams-server/src/subscriptions/worker.rs:238-245 | a failed delivery is retried exactly when its backoff is over and there is room, however long ago its lease ended |
| `SubscriptionService.LinkMatching` | crates/durable-streams-server/src/subscriptions/mod.rs:203-210 | the loop links exactly the matching streams, from zero, and keeps what was linked |
| `SubscriptionService.RefreshAll` | crates/durable-streams-server/src/subscriptions/mod.rs:201-220 | the loop over subscriptions is the reconciliation of every one of them |
| `SubscriptionService.CompleteSub` | crates/durable-streams-server/src/subscriptions/api.rs:33-96 | validation loop, cursor loop and settlement compute the completion: fenced, invalid acknowledgement, or the whole batch |
| `SubscriptionService.AddStreamLinks` | crates/durable-streams-server/src/subscriptions/api.rs:290-317 | the loop links all paths or reports an invalid one |
| `SubscriptionService.RemoveStreamLink` | crates/durable-streams-server/src/subscriptions/api.rs:201-212 | unlinks a path; one the pattern matches only loses its explicit mark |
| `SubscriptionService.ClaimSub` | crates/durable-streams-server/src/subscriptions/api.rs:235-288 | takes the unheld wake, issuing one first if there is pending work and none, with its four refusals |
| `SubscriptionService.InitialLinks` | crates/durable-streams-server/src/subscriptions/api.rs:361-384 | the two loops of creation link matching streams at their tails and listed ones explicitly |
| `SubscriptionService.CreateOn` | crates/durable-streams-server/src/subscriptions/api.rs:319-415 | creation: the first configuration objection in order, mismatch, idempotent repeat, wake stream check, new subscription |
| `SubscriptionService.TickLoop` | crates/durable-streams-server/src/subscriptions/worker.rs:127-179 | the loop issues missing wakes and picks deliveries while there is room |
| `SubscriptionService.AckSnapshotLoop` | crates/durable-streams-server/src/subscriptions/worker.rs:228-233 | acknowledges each stream of the wake at its snapshot tail, never backwards |
| `SubscriptionService.MarkLoop` | crates/durable-streams-server/src/subscriptions/worker.rs:183-202 | marks each published wake as delivered, or the failure to publish it |
| `SubscriptionService.TickIsBounded` | crates/durable-streams-server/src/subscriptions/worker.rs:140-178 | a tick picks each subscription once, nothing active, and never more than sixteen in all |
| `SubscriptionService.ReconciledIsBounded` | crates/durable-streams-server/src/subscriptions/worker.rs:117-205 | so do the deliveries handed out after both saves, and fencing is kept |
| `SubscriptionService.Service.Save` | crates/durable-streams-server/src/subscriptions/mod.rs:174-182 | nothing is exposed that was not stored; a failed save leaves memory as it was |
| `SubscriptionService.Service.ControlTransaction` | crates/durable-streams-server/src/subscriptions/api.rs:133-233 | the whole request is one step of the fenced state machine, and its reply tells which |
| `SubscriptionService.Service.FinishDelivery` | crates/durable-streams-server/src/subscriptions/worker.rs:207-247 | recording a result is one step of the machine and succeeds when nothing changed or the save did |
| `SubscriptionService.Service.Reconcile` | crates/durable-streams-server/src/subscriptions/worker.rs:117-205 | a tick is the tick step, then the publication step; deliveries are handed out only after both saves |
| `SubscriptionService.Service.Reload` | crates/durable-streams-server/src/subscriptions/mod.rs:143-172 | a restart serves what is stored |
| `Worker.EveryRunConserves` | crates/durable-streams-server/src/subscriptions/worker.rs:27-107 | in every run of a fresh worker beside its service, with real ticks, saves and any other service events: the active keys are the disjoint union of deliveries in flight and unrecorded results, at most sixteen, none in flight twice, and every delivery handed out is in flight, waiting or recorded |
| `Worker.RunConserves` | crates/durable-streams-server/src/subscriptions/worker.rs:27-107 | the same from any sound state; that ticks hand out nothing active and only what fits is proved of the tick |
| `Worker.ResultsAreKept` | crates/durable-streams-server/src/subscriptions/worker.rs:82-107 | a waiting result is kept unchanged and active until the save that records it succeeded or had nothing to change |
| `Worker.DeliveryWorker.JoinNext` | crates/durable-streams-server/src/subscriptions/worker.rs:37-48 | a finished task moves from in flight to waiting and overwrites nothing |
| `Worker.DeliveryWorker.Persist` | crates/durable-streams-server/src/subscriptions/worker.rs:88-104 | a result leaves the queue exactly when it was recorded |
| `Worker.DeliveryWorker.PersistCompletions` | crates/durable-streams-server/src/subscriptions/worker.rs:82-107 | records results in order; a busy store, a failed save or a halt stops the loop with that result and all later ones still queued |
| `Worker.DeliveryWorker.SpawnWork` | crates/durable-streams-server/src/subscriptions/worker.rs:56-73 | new deliveries are distinct from all active ones and fit the room |
| `Worker.DeliveryWorker.IntervalTick` | crates/durable-streams-server/src/subscriptions/worker.rs:50-75 | a tick records, then spawns; it spawns nothing when the boundary refused |
| `Glob.GlobMatches` | crates/durable-streams-server/src/subscriptions/model.rs:118-135 | the one-row dynamic program equals the recursive meaning of `*` and `**` for every pattern and path |
| `Glob.BackIsForward` | crates/durable-streams-server/src/subscriptions/model.rs:118-135 | matching from the end equals matching from the front |
| `Glob.MatchesConcat` | crates/durable-streams-server/src/subscriptions/model.rs:118-135 | a concatenated pattern matches exactly the paths that split between its parts |
| `JournalRecovery.ReplayRestoresWholeBatches` | crates/durable-streams-client/src/journal.rs:296-339 | for every sequence of non-empty batches and every byte prefix of the file, replay restores exactly the batches wholly inside, contiguous local sequence numbers, both counters and the resume offset of the last batch that carried one |
| `JournalRecovery.AppendAfterCrashIff` | crates/durable-streams-client/src/journal.rs:336-337 | however many batches are appended after a crash and reopen, all are recovered if the crash left no complete line of an unfinished batch, and none otherwise |
| `JournalCycles.CleanCyclesReplay` | crates/durable-streams-client/src/journal.rs:145-170 | replaying the file after any number of cycles of appending, clean crash and reopen restores exactly the surviving batches |
| `JournalCycles.CleanCyclesRecover` | crates/durable-streams-client/src/journal.rs:145-170 | the same on the records the file keeps |
| `JournalCycles.StuckFileReplays` | crates/durable-streams-client/src/journal.rs:336-337 | replaying the file of a journal with stale lines after any number of further cycles gives the batches before the bad crash |
| `JournalCycles.StuckForever` | crates/durable-streams-client/src/journal.rs:336-337 | the same on the records the file keeps: nothing appended later is ever recovered |
| `JournalCycles.UncleanIsStuck` | crates/durable-streams-client/src/journal.rs:336-337 | a crash that leaves a complete line of an unfinished batch puts the journal in that state |
| `JournalCycles.CycleHolds` | crates/durable-streams-client/src/journal.rs:145-170 | a cycle on the file is a cycle on its complete lines |
| `JournalCycles.CycleOnBytes` | crates/durable-streams-client/src/journal.rs:145-170 | the crashed file replays to the complete lines and is truncated to them |
| `JournalRecovery.StaleLineLosesNextBatch` | crates/durable-streams-client/src/journal.rs:336-337 | a concrete crash after which the next batch is lost |
| `JournalRecovery.SomeInside` | crates/durable-streams-client/src/journal.rs:296-339 | every prefix has such a last whole batch |
| `JournalReplay.ReplayIsLongestIff` | crates/durable-streams-client/src/journal.rs:341-398 | on any records at all, replay restores the longest run of whole batches they begin with, together with its counters and resume offset, if and only if the next record does not continue the last of these batches past its own length; otherwise it loses exactly that batch |
| `JournalReplay.ReplayIsWhole` | crates/durable-streams-client/src/journal.rs:341-413 | whatever the records, what is restored is a prefix of them made of whole batches in order |
| `JournalReplay.OverrunLosesBatch` | crates/durable-streams-client/src/journal.rs:385-396 | a concrete batch of three restored by itself, and lost when a fourth record of three follows |
| `JournalReplay.AnyFileReplays` | crates/durable-streams-client/src/journal.rs:296-339 | on any bytes: a foreign version or stream before the first line that is no record fails the replay, otherwise the longest run of whole batches before that line is restored, and the file is kept up to its last newline |
| `JournalReplay.ParseAnswers` | crates/durable-streams-client/src/journal.rs:311-335 | blank lines are skipped, an unreadable line ends the records, a foreign one fails |
| `JournalReplay.LinesJoin` | crates/durable-streams-client/src/journal.rs:305-311 | the lines are what stands between the newlines |
| `Journal.CommitValidPrefix` | crates/durable-streams-client/src/journal.rs:341-413 | the replay loop computes the scan over records, stopping at the first that does not follow |
| `Journal.ReplayJournal` | crates/durable-streams-client/src/journal.rs:296-339 | cut at the last newline, parse, stop at the first unparsable line, fail on a foreign version or stream |
| `Journal.JsonJournal.AppendValues` | crates/durable-streams-client/src/journal.rs:224-282 | writes one line per value and advances the counters; an empty call only moves the resume offset; too many values are refused untouched; a fresh journal stays the journal of its batches |
| `Journal.JsonJournal.Open` | crates/durable-streams-client/src/journal.rs:145-170 | the reopened file is cut to the valid length and the counters are those replayed |
| `Journal.HistoryGrows` | crates/durable-streams-client/src/journal.rs:224-282 | one more batch extends records, text, counters and resume offset accordingly |
| `Journal.TakeBatch` | crates/durable-streams-client/src/journal.rs:341-398 | scanning any part of a batch after whole batches leaves exactly that part pending |
| `Journal.CutText` | crates/durable-streams-client/src/journal.rs:305-309 | any byte prefix is a number of whole lines and a part of the next |
| `Journal.FlatIsContiguous` | crates/durable-streams-client/src/journal.rs:247-262 | the k-th record of a journal has local sequence k |
| `SseRoundTrip.EveryChunkingDelivers` | crates/durable-streams-client/src/protocol.rs:307-350 | whatever data, control and keep-alive frames the server prints and however the bytes are cut, the parser yields exactly the printed events in order and ends idle |
| `SseRoundTrip.ParseOfPrint` | crates/durable-streams-server/src/protocol/sse.rs:119-128 | every UTF-8 text comes back as one data event, the newline-join of its lines, each without one leading space |
| `SseRoundTrip.RoundTripIff` | crates/durable-streams-server/src/protocol/sse.rs:134-161 | the client reads the text back, up to line endings, if and only if no line starts with a space |
| `SseRoundTrip.LeadingSpaceIsLost` | crates/durable-streams-server/src/protocol/sse.rs:119-128 | a concrete text whose leading space is lost |
| `SseRoundTrip.JoinOfLines` | crates/durable-streams-server/src/protocol/sse.rs:134-161 | joining the split lines is the text with every line ending written as one newline |
| `SseRoundTrip.ChunkingDoesNotMatter` | crates/durable-streams-client/src/protocol.rs:308-349 | for any bytes and any chunking the events are the same, or parsing fails in both |
| `SseRoundTrip.KeepAliveIsInvisible` | crates/durable-streams-server/src/protocol/sse.rs:164-166 | a keep-alive between events adds nothing |
| `SseRoundTrip.ControlParses` | crates/durable-streams-server/src/protocol/sse.rs:42-46 | a control frame comes back as one control event with its payload |
| `SseBlocks.AnyBlockParses` | crates/durable-streams-client/src/protocol.rs:308-349 | on any block of lines up to a blank one, whoever printed it and with either line ending: the last name and the joined data come out as one event, or nothing if there is neither, and the parser starts afresh; a line that is not UTF-8 fails it |
| `SseBlocks.TrimIs` | crates/durable-streams-client/src/protocol.rs:334-336 | an event name loses the white space around it and nothing else |
| `Sse.SplitLines` | crates/durable-streams-server/src/protocol/sse.rs:134-161 | the index loop splits at every line ending, a return and newline counting once |
| `Sse.FormatRawDataFrame` | crates/durable-streams-server/src/protocol/sse.rs:119-128 | the loop prints one data line per text line |
| `Sse.SseParser.PushLine` | crates/durable-streams-client/src/protocol.rs:313-346 | one line ends, names or extends the event, or fails on bytes that are not UTF-8 |
| `Sse.SseParser.PushBytes` | crates/durable-streams-client/src/protocol.rs:308-349 | the loop takes every complete line of the buffer and keeps the rest |
| `Utf8.ValidSplit` | crates/durable-streams-client/src/protocol.rs:334-335 | an ASCII byte in UTF-8 text is a boundary on both sides |
| `OffsetCodec.AcceptsExactlyPrinted` | crates/durable-streams-server/src/protocol/offset.rs:113-155 | parsing accepts exactly the two sentinels and the canonical 33-character strings |
| `OffsetCodec.ParseOfPrint` | crates/durable-streams-server/src/protocol/offset.rs:113-155 | parsing what was printed gives the offset back, for every pair of 64-bit numbers |
| `OffsetCodec.PrintOfParse` | crates/durable-streams-server/src/protocol/offset.rs:209-241 | printing what was parsed gives the text back |
| `OffsetCodec.OrderIsTextual` | crates/durable-streams-server/src/protocol/offset.rs:170-194 | the mixed comparison, the numeric order and the order of the printed text are one total order |
| `OffsetCodec.EncodeOffset` | crates/durable-streams-server/src/protocol/offset.rs:209-224 | the array loop writes two sixteen-digit numbers around an underscore |
| `OffsetCodec.DecodeHex16` | crates/durable-streams-server/src/protocol/offset.rs:226-241 | accumulates the value of sixteen lower-case digits, or refuses |
| `OffsetCodec.FromStr` | crates/durable-streams-server/src/protocol/offset.rs:113-155 | the parser with all its refusals |
| `OffsetCodec.ZeroIsLeast` | crates/durable-streams-server/src/subscriptions/api.rs:72-75 | the zero offset is textually least, which justifies starting links there |

## Left out

- Streams: creation and update timestamps, and the character check on content types, are not modelled; content types are taken as already normalised, an empty one is refused.
- MemoryStorage.InMemoryStorage.ReadStream: the method runs without interruption, so the deadline is renewed in the same step as the read; `Renewal.ReadInSteps` has what may happen in between.
- OrphanedRead.CapturedReadIff: a source removed and created anew under the same path in between is covered by `OrphanedRead.FinishedIff` only.
- ControlOffsets.AlwaysResumesIff: assumes that the bytes below the fork point fit 64 bits, which every reachable store guarantees, and that the fork's own byte offsets do not wrap.
- LiveRead.LiveReadsAreGapless: the reader's loop is a transition relation, not a method; keep-alive timers, connection deadlines and the response that long-poll builds around the same read are not modelled.
- ControlOffsets.EncodeFrames: frames are records and control offsets; cursors, base64 and the text of the JSON array are not modelled.
- ProducerProtocol.ExactlyOnce: one client per producer id, failed work is sent again unchanged, the stream stays in the map and the producer's state does not idle out.
- IdempotentProducer.Producer.Append: one answer stands for a request with all its transport retries; backoff delays and the acknowledged server offset are not modelled.
- Fencing.EveryRunIsFenced: signatures, signing keys, request headers and the JSON of replies are not modelled.
- SubscriptionService.Service.Reconcile: the body and signature of a webhook delivery and the published wake event are not modelled, only which wakes are delivered and which publications succeeded.
- Worker.DeliveryWorker.IntervalTick: the shutdown that aborts the running deliveries is the end of the run.
- Journal.JsonJournal.Open: a failed replay is reported by `Journal.ReplayJournal`; the validation of the stream identity and file system errors are not modelled.
- Sse.FormatRawDataFrame: the lossy conversion of bytes that are not UTF-8 happens before it and is not modelled.
- OffsetCodec.FromStr: the text of its error messages is not modelled.
- The file backend is not part of this model.
- The transactional backend's writes, layout and recovery: only its read is modelled.
- Execution admission (semaphores, task tracking) beyond its busy and halted answers.
- Configuration, TLS, routing, proxy trust, telemetry, problem responses and the remaining HTTP handlers: broad but shallow branching.
- Webhook URL checks and delivery over HTTP.
- Etags, cursor generation and retry backoff: small arithmetic without structure.
- The client's builders, transport, command-line tools and conformance adapter.
