# WalrusOS, modelled and proved

WalrusOS keeps the memory of software agents as append-only, content-addressed
events. This project models its stateful core and proves what each part is for:

| part | modules |
|---|---|
| task-graph scheduler | `TaskGraph`, `Coordinator` |
| encrypted, chunked blob store with key rotation | `Envelope`, `KeyStore`, `BlobStore`, `BlobSession` |
| incremental TF-IDF index | `VectorMath`, `VectorIndex` |
| memory streams over two ledgers | `Streams`, `StreamEngine`, `StreamRuns`, `StreamFacts`, `StreamWrites`, `StreamSnapshot`, `MemoryEngine` |
| event replay | `Protocol`, `Replay`, `Signatures` |
| hash-chained event log and disaster recovery | `EventLog`, `Recovery` |
| fork, ancestor and merge | `TimeTravel` |
| event mesh queues | `EventMesh` |
| budgeted recall | `Recall` |
| shared helpers | `Prelude`, `StableSort` |

Objects that the program updates in place are classes here, and each method is
proved against a function of the old state; the main results are lemmas about
those functions, over every input or every run.

Where the code and its own words differ, the model follows the code:

- `replay` keeps the `until_event` event unchecked, and an agent whose last
  capability is revoked is unrestricted again.
- `append` hashes the stored JSON text, `replay` compares that with the hash of
  the canonical text; verified replay therefore drops every signed memory event
  whose payload is not empty. `recover` makes no such comparison.
- an append that is refused, for an unknown memory type or a repeated id, has
  already drawn its epoch.
- `snapshot` records a `class_type` that memory events do not have, so restored
  events are all episodic; and `append` overwrites their `_meta`, so tags,
  importance, summary and project are lost with the signature.
- the blob-id pattern admits one final newline.
- two agents' queues are one when `agent:stream` is the same text; the SDK's
  ids are UUIDs, so only direct calls of `subscribe` can collide.
- `merge_streams` says it copies the divergent events onto the target; it
  appends one merge event. Repeated before the source has grown, it reuses that
  event's id and overwrites it, however much the target has grown.
- `find_lca` looks for a fork only in its second argument.
- `recover` marks a lost payload by `_status`, and so also skips indexing an
  event whose own payload says so; timestamps come from payloads only.
- `build_recall_context` promises the two most recent events; it adds them only
  if their lines fit.
- an `importance` of zero counts as one half in the ranking.
- deleting a stream deletes blobs by content, shared ones included; and the ids
  it frees can be appended again, which can close a loop of parents.

Assumptions, each a named predicate or parameter: AEAD, compression, key
derivation and JSON invert (`Envelope.Lawful`, `Recovery.Faithful`); the blob
network is content-addressed and keeps what it was given
(`BlobStore.Network`, `EventLog.HonestNetwork`); SHA-256 is injective
(`EventLog.Lawful`, `TimeTravel.Lawful`); default and canonical JSON text agree
on the empty object only (`Signatures.TextsDiffer`); generated stream and key
ids are new (`Fresh`, `FreshDraw`). Event ids may repeat, except where a result
says otherwise (`NewIds`, `UnusedIds`, `Growing`). Clocks advance where the hash
chain and lineages are concerned (`Timely`, `Growing`), and nowhere else. The
tokenizer, the logarithm (only: monotone, with log(1/2) > -1; `StrictLog` where a
result says so), the square root and the rounding of scores are parameters;
numbers are exact reals. Strings of ISO timestamps are compared through an
arbitrary ranking.

## Model

| member | source | states |
|---|---|---|
| StableSort.SortByCorrect | walrusos/engine/time_travel.py:27 | sorting gives the same elements in ascending order, ties in their original order |
| StableSort.StableSortUnique | walrusos/engine/ranking.py:100 | there is only one such order, so any stable sort returns it |
| Prelude.JoinLaysOut | walrusos/engine/context.py:242 | a join is its parts one after another, in order, with the separator and nothing else between two of them |
| Coordinator.ResolveDeps | walrusos/runtime/coordinator.py:101-108 | a dependency is resolved iff it is the id at an in-range index (Python bools included); self and forward references are allowed |
| Coordinator.RunTask | walrusos/runtime/coordinator.py:207-316 | a task without an agent fails and returns nothing, a raising write leaves it in progress, and otherwise it is done with the response and the event's id |
| Coordinator.ReadyIsFront | walrusos/runtime/coordinator.py:170-175 | given that statuses follow the rounds so far, the ready list is the next wave of the graph, in plan order |
| Coordinator.BlockPending | walrusos/runtime/coordinator.py:177-181 | when nothing is ready, every pending task becomes blocked and no other task changes |
| Coordinator.RunAll | walrusos/runtime/coordinator.py:183-186 | every ready task runs, each once and in plan order, exceptions are collected in place, and no other task is touched, results included |
| Coordinator.Record | walrusos/runtime/coordinator.py:188-195 | an exception marks the task failed; a task that is done enters the completed ids and its event, if any, the collected events |
| Coordinator.RecordAll | walrusos/runtime/coordinator.py:188-200 | after the bookkeeping each ready task is done iff its run succeeds, else failed, and exactly the done ones were recorded, in order |
| Coordinator.RunWave | walrusos/runtime/coordinator.py:183-200 | one gather and its bookkeeping take statuses, results, completed ids and collected events from round k to round k + 1 |
| Coordinator.RunWaves | walrusos/runtime/coordinator.py:165-205 | the loop ends after at most n waves with an empty ready list: the cap max(3n, 6) never ends it |
| Coordinator.Execute | walrusos/runtime/coordinator.py:158-205 | for every graph (cycles, unknown dependencies) and every outcome: a pending task is done, with its response and event id, iff every task it depends on is done, its agent is among the agents and its write succeeds; failed iff only the first holds; blocked otherwise. The collected events are those of the done tasks, one each. Which tasks those are, the waves and the order of the events are given by the graph's least fixpoint |
| Coordinator.VerdictMeaning | walrusos/runtime/coordinator.py:165-205 | a pending task ends done, failed or blocked: done iff in the least fixpoint, failed iff its dependencies are and its run fails, blocked iff some dependency is not |
| Coordinator.FinishedIffDone | walrusos/runtime/coordinator.py:188-193 | an id is in the least fixpoint iff a task with that id ends as done |
| Coordinator.RecordedIffRanWell | walrusos/runtime/coordinator.py:188-193 | a task is recorded as done iff it runs and its run succeeds |
| Coordinator.RunsOnceInItsWave | walrusos/runtime/coordinator.py:165-187 | a task runs in one wave, its own, exactly when its dependencies all finish, and otherwise never |
| Coordinator.DependencyEventsFirst | walrusos/runtime/coordinator.py:188-205 | in the collected events, the event of a completed task stands after the event of each of its dependencies that has one |
| TaskGraph.LeastFixpointCorrect | walrusos/runtime/coordinator.py:168-200 | the fixpoint the waves reach is closed, contained in every closed set, and contains every round |
| TaskGraph.DoneOrderDistinct | walrusos/runtime/coordinator.py:188-193 | no task is recorded as done twice |
| TaskGraph.DependenciesFirst | walrusos/runtime/coordinator.py:171-193 | in the order of completion every dependency of a task stands before the task |
| TaskGraph.WaveUnique | walrusos/runtime/coordinator.py:170-187 | a task is in the ready list of one wave only |
| TaskGraph.WaveIsLevel | walrusos/runtime/coordinator.py:170-187 | a task with no dependencies runs in wave 0, any other in one plus the largest wave of its dependencies |
| TaskGraph.BlockedIffStuck | walrusos/runtime/coordinator.py:177-181 | when all runs succeed, a task stays out exactly when it belongs to a set of tasks that wait for one another or for an unknown id |
| TaskGraph.OrderedPlanFinishes | walrusos/runtime/coordinator.py:101-108 | a plan whose dependencies all point backwards completes every task when every run succeeds |
| Envelope.HeaderRoundTrip | walrusos/adapters/key_store.py:357-377 | building and parsing a V1 header are inverse in both directions for blobs of at least 33 bytes, and the adapter's slicing agrees |
| Envelope.ParsersAgree | walrusos/adapters/walrus.py:229-250 | the adapter's slicing and `parse_v1_header` agree exactly on blobs of 33 bytes or more, and on shorter ones when bearing the magic means having under 13 bytes |
| Envelope.V0RoundTrip | walrusos/adapters/walrus.py:216-250 | a legacy blob opens to its plaintext iff its random nonce does not happen to begin with the V1 magic before at least five bytes of plaintext |
| KeyStore.UnwrapWrap | walrusos/adapters/key_store.py:171-187 | a wrapped key is a nonce and the data key encrypted under the key derived from password and salt, and unwrapping it gives the data key back |
| KeyStore.FirstKeySound | walrusos/adapters/key_store.py:243-260 | the table with its first key is sound |
| KeyStore.ActiveIsLast | walrusos/adapters/key_store.py:264-277 | the first active row of a reachable table is its last row, so the active key is the newest |
| KeyStore.RotationSound | walrusos/adapters/key_store.py:304-336 | rotation keeps generations 1..n, exactly one active row (the newest), distinct key ids, and every data key recoverable and stored encrypted only |
| KeyStore.Store.EnsureActiveKey | walrusos/adapters/key_store.py:233-241 | the first start creates generation 1; a restart with the same password changes nothing |
| KeyStore.Store.constructor | walrusos/adapters/key_store.py:206-226 | opening the store, first time or over an earlier table with the same password, gives a valid store |
| KeyStore.Store.CreateKeyRecord | walrusos/adapters/key_store.py:243-260 | one wrapped row is added and its data key cached |
| KeyStore.Store.ActiveKey | walrusos/adapters/key_store.py:264-277 | the newest key with the data key it was generated with |
| KeyStore.Store.KeyById | walrusos/adapters/key_store.py:279-292 | through cache or unwrapping, each known id gives its original data key, any other id raises KeyError |
| KeyStore.Store.LoadDek | walrusos/adapters/key_store.py:294-302 | a row's data key is the one it was generated with, whether cached or not |
| KeyStore.Store.Rotate | walrusos/adapters/key_store.py:304-336 | the table after rotation, and that no data key is forgotten |
| BlobStore.JoinChunks | walrusos/adapters/walrus.py:344-376 | the pieces of a payload of any length, joined in order, are the payload |
| BlobStore.Chunks | walrusos/adapters/walrus.py:344-376 | every piece but the last has exactly the chunk size, and the last is not empty |
| BlobStore.PutSealed | walrusos/adapters/walrus.py:216-227 | a compressed, encrypted blob opens, through the key its header names, to what was put in |
| BlobStore.Adapter.Upload | walrusos/adapters/walrus.py:392-394 | the uploaded bytes are magic, version, the active key's id, a 12-byte nonce and the compressed data encrypted under that key; what was stored before is kept |
| BlobStore.Adapter.ChunkedUpload | walrusos/adapters/walrus.py:344-376 | every piece and the manifest are sealed under the returned manifest id, every new blob names the active key, and the chunk list is saved |
| BlobStore.Adapter.StoreBlob | walrusos/adapters/walrus.py:380-405 | a payload of any length is stored under the returned id, chunked iff it is longer than the chunk size; every new blob names the active key and nothing stored before is lost |
| BlobStore.Adapter.ResolveAead | walrusos/adapters/walrus.py:252-270 | active and retired keys alike resolve to the data key issued under that id |
| BlobStore.Adapter.Decode | walrusos/adapters/walrus.py:229-250 | V1 and legacy envelopes, decryption and decompression errors included |
| BlobStore.Adapter.RetrieveBlob | walrusos/adapters/walrus.py:407-452 | a download, error cases and recursion limit included, is a function of network, chunk lists and keys |
| BlobStore.Adapter.RetrieveManifest | walrusos/adapters/walrus.py:422-452 | the persisted list first, else the downloaded manifest, which is then saved |
| BlobStore.Adapter.RetrieveParts | walrusos/adapters/walrus.py:451-452 | the parts in order, stopping at the first error |
| BlobStore.Adapter.DeleteBlob | walrusos/adapters/walrus.py:454-466 | only the metadata entry goes: network, lists and keys are unchanged |
| BlobStore.Adapter.SaveManifest | walrusos/adapters/sqlite_ledger.py:531-568 | a chunk list is saved once and never overwritten |
| BlobStore.Adapter.RotateKey | walrusos/adapters/walrus.py:519-540 | the new key becomes the active one, so later uploads name it, while everything stored stays stored |
| BlobStore.RetrieveStored | walrusos/adapters/walrus.py:407-452 | what is stored under an id is what a download returns |
| BlobStore.ManifestPathsAgree | walrusos/adapters/walrus.py:422-452 | the persisted chunk list and the downloaded manifest give the same bytes |
| BlobStore.StoredForever | walrusos/adapters/walrus.py:380-452 | over every sequence of later states the payload stays retrievable, whatever key is active |
| BlobSession.Restarted | walrusos/adapters/walrus.py:127-176 | a new process with the same password resumes with all keys, chunk lists and blobs |
| BlobSession.Perform | walrusos/adapters/walrus.py:380-540 | any list of commands keeps a stored payload stored |
| BlobSession.StoreThenRetrieve | walrusos/adapters/walrus.py:380-452 | store, then any list of stores, downloads, deletions, rotations and restarts, then retrieve: the result is exactly the payload |
| VectorMath.TermFreqPositive | walrusos/adapters/in_memory.py:35-40 | term frequencies are positive and cover exactly the tokens of the text |
| VectorMath.TermFreqIsShare | walrusos/adapters/in_memory.py:35-40 | a token's frequency is its number of occurrences divided by the number of tokens |
| VectorMath.TermFreqSumsToOne | walrusos/adapters/in_memory.py:35-40 | the frequencies of a text with tokens sum to one |
| VectorMath.CauchySchwarz | walrusos/adapters/in_memory.py:43-48 | the dot product over common keys is at most the product of the magnitudes |
| VectorMath.CosineMeaning | walrusos/adapters/in_memory.py:43-48 | the cosine of positive sparse vectors is in [0, 1], and positive iff they share a key |
| VectorMath.TwoTermCosines | walrusos/adapters/in_memory.py:43-48 | against a vector of one term, of two vectors of two terms the one with the larger ratio of that term to the other has the larger cosine |
| VectorIndex.CountAfterUpsert | walrusos/adapters/in_memory.py:221-234 | how the recomputed document frequency of each term changes when a document is indexed or re-indexed |
| VectorIndex.InMemoryVector.Decrement | walrusos/adapters/in_memory.py:226-230 | every entry drops by exactly one: the `max(0, ...)` guard never clamps |
| VectorIndex.InMemoryVector.Increment | walrusos/adapters/in_memory.py:231-233 | every entry rises by exactly one |
| VectorIndex.InMemoryVector.Recount | walrusos/adapters/in_memory.py:225-233 | the table moves from the old document of an id, if any, to the new one |
| VectorIndex.InMemoryVector.Upsert | walrusos/adapters/in_memory.py:221-234 | a text with tokens is the document's new text, with its term frequencies and metadata, every other document is kept, and the maintained frequency table equals the recomputed one; a text without tokens changes nothing |
| VectorIndex.InMemoryVector.Delete | walrusos/adapters/in_memory.py:260-264 | exactly that document goes, the others keep their order, and the table equals the recomputed one |
| VectorIndex.IdfPositive | walrusos/adapters/in_memory.py:213-216 | in every reachable index every idf is positive |
| VectorIndex.RarerWeighsMore | walrusos/adapters/in_memory.py:213-216 | in any index a term that fewer documents contain has an idf at least as large, and a larger one under a strictly increasing logarithm |
| VectorIndex.ScoreMeaning | walrusos/adapters/in_memory.py:236-248 | a score is in [0, 1], and positive iff document and query share a token |
| VectorIndex.RarerScoresHigher | walrusos/adapters/in_memory.py:236-248 | for one query, a document of one term scores at least as high as a document of another that is no more frequent in the query and no rarer in the index; strictly higher if one comparison is strict |
| VectorIndex.PurerScoresHigher | walrusos/adapters/in_memory.py:236-248 | for a query of one term, of two documents with two terms the one in which it occurs more often relative to the other term, and whose other term is no rarer, scores at least as high; strictly if one comparison is strict |
| VectorIndex.SearchMeaning | walrusos/adapters/in_memory.py:236-258 | search returns at most `limit` documents whose text shares a token with the query, each once, with its text and metadata, by descending score, and omits no better one |
| VectorIndex.SearchPrefersRarer | walrusos/adapters/in_memory.py:236-258 | in every result that holds the document of the commoner term, the document of the rarer one comes before it, unless both round to the same score |
| VectorIndex.InMemoryVector.ScoreAll | walrusos/adapters/in_memory.py:243-257 | the loop collects the documents with a positive score, in index order |
| VectorIndex.InMemoryVector.Search | walrusos/adapters/in_memory.py:236-258 | the loop over the documents computes that result |
| StreamEngine.NextSound | walrusos/engine/memory.py:85-200 | every operation, refused writes included (unknown memory type, repeated id), keeps stored ids distinct and usable, every stream a chain with increasing epochs, and no stored epoch beyond the last one drawn |
| StreamRuns.RunRep | walrusos/engine/memory.py:41-57 | after any run, the tables and the epoch cache represent the run's history: over SQLite with repeated ids, refused writes and restarts, over the in-memory ledger with new ids and no restart |
| StreamRuns.SqliteStreamsWellFormed | walrusos/adapters/sqlite_ledger.py:379-486 | restarts and refused writes included, each stream's epochs increase, each first parent is the previous event or genesis, and the head is the last event |
| StreamRuns.EpochsContiguousIff | walrusos/engine/memory.py:157-182 | a stream's epochs are exactly 1..n iff, since its last deletion, no event was added after a refused write (unknown type or repeated id) with no restart in between |
| StreamRuns.AcceptedWritesContiguous | walrusos/engine/memory.py:41-57 | while no write to a stream is refused its epochs are exactly 1..n |
| StreamRuns.LedgersAgree | walrusos/adapters/in_memory.py:99-193 | for every serial run with ids not stored at the time, both ledgers give the same listing, head and event, up to an empty embedding being stored as none; the listings are identical iff no listed embedding is empty |
| StreamFacts.RunGrounded | walrusos/engine/memory.py:299-358 | every parent of every event, both parents of a merge included, is genesis or an event stored strictly earlier |
| StreamFacts.WalksEndIff | walrusos/engine/memory.py:321-358 | every step of every walk from child to parent goes back one event at least iff no event has an id that was named as a parent before it was written |
| StreamFacts.NextWalksEndIff | walrusos/engine/memory.py:85-358 | an operation keeps that so iff the event it writes, if any, has an id that no event names as a parent |
| StreamFacts.RunWalksEndIff | walrusos/engine/memory.py:85-358 | over every run, refused writes included, all ancestor walks go back in time iff no write used the id of a named parent again |
| StreamFacts.ReusedIdLoops | walrusos/engine/memory.py:164-182 | a run that breaks it: an id is merged into another stream, deleted with its own, and appended there again |
| StreamFacts.RunWalksEnd | walrusos/engine/memory.py:299-358 | over every run in which no deleted event's id is used again, every ancestor walk goes back in time, and so ends |
| StreamFacts.OnlyTouchedChanges | walrusos/engine/memory.py:85-358 | fork fills one new stream, append and merge add one event with the given id to their target, delete empties its stream; every other stream is unchanged, and a refused write changes none |
| StreamFacts.ReplayIsSlice | walrusos/engine/memory.py:362-375 | over every run replay is one contiguous slice of the timeline's payloads, from the first epoch that reaches `from_epoch` to the last that does not exceed `up_to_epoch` |
| StreamFacts.ReplayByPosition | walrusos/engine/memory.py:362-375 | while no epoch was skipped after a refused write the bounds are positions counted from one |
| StreamFacts.PayloadsKept | walrusos/engine/memory.py:157-218 | no operation but a deletion makes a stored payload unreadable or different |
| StreamFacts.DeleteKeepsPayloadIff | walrusos/engine/memory.py:89-102 | a deletion leaves another stream's payload readable iff no deleted event had the same content |
| StreamFacts.EpochGapIff | walrusos/engine/memory.py:41-57 | an append is refused iff its memory type is unknown or its id stored, and the next epoch is contiguous iff it was not; a restart repairs the gap |
| StreamFacts.InMemoryRestartIff | walrusos/engine/memory.py:41-57 | over the in-memory ledger a new engine draws a later epoch than the stored ones iff the stream is empty |
| StreamSnapshot.SnapshotReads | walrusos/engine/memory.py:394-416 | a snapshot holds what reading each listed event gives, in order |
| StreamWrites.AppendLands | walrusos/engine/memory.py:104-200 | over every run and both ledgers, an append is accepted iff its type is known and its id new; it is listed last, hangs on the stream's last event, and reads back as the caller's payload with the append's `_meta` and signature; no other listing changes |
| StreamWrites.MergeLands | walrusos/engine/memory.py:321-358 | over every run and both ledgers, an accepted merge adds one event with exactly two parents, the last events of target and source, each genesis when that stream is empty, and a payload that names the source and both heads |
| StreamWrites.ForkLands | walrusos/engine/memory.py:299-319 | over every run and both ledgers, a fork of a stored event opens the new stream with one event on genesis that names the stream, the event and its epoch; of an unknown event it raises KeyError and changes nothing |
| StreamWrites.DeleteClears | walrusos/engine/memory.py:85-102 | over every run and both ledgers, a deleted stream lists nothing and starts again at genesis and epoch one; every other listing and head is unchanged |
| StreamSnapshot.SnapshotRestores | walrusos/engine/memory.py:394-449 | restoring a snapshot of any stream under new ids gives a new stream with exactly its payload bodies in order, each with default episodic `_meta`, no signature and the marker, in episodic events with consecutive epochs, and leaves every other listing alone |
| StreamSnapshot.RunSnapshotRestores | walrusos/engine/memory.py:394-449 | the same in every state a run over the SQLite ledger reaches, event by event against what reading the original stream gives |
| StreamSnapshot.RestoredKeepsBodyOnly | walrusos/engine/memory.py:441-448 | of a payload the body survives; `_meta` iff it was the episodic default, the signature iff there was none |
| StreamSnapshot.RestoreKeepsIff | walrusos/engine/memory.py:427-449 | over a whole stream, the memory types survive iff all were episodic, and `_meta` iff all were the default |
| StreamSnapshot.RestoreSnapshot | walrusos/engine/memory.py:427-449 | the loop of appends, and where it stands when one of them is refused |
| MemoryEngine.InMemoryLedger.ListEvents | walrusos/adapters/in_memory.py:187-193 | the listing in append order, skipping ids without an event |
| MemoryEngine.InMemoryLedger.DeleteStream | walrusos/adapters/in_memory.py:104-108 | the three dictionaries after a deletion |
| MemoryEngine.InMemoryLedger.AppendEvent | walrusos/adapters/in_memory.py:110-118 | an event without an id is refused; otherwise event, head and order are written |
| MemoryEngine.SQLiteLedger.AppendEvent | walrusos/adapters/sqlite_ledger.py:379-416 | a repeated id is refused with nothing changed; otherwise row, head and counter are written |
| MemoryEngine.SQLiteLedger.RegisterStream | walrusos/adapters/sqlite_ledger.py:346-361 | an existing stream is left alone, head and counter included |
| MemoryEngine.SQLiteLedger.DeleteStream | walrusos/adapters/sqlite_ledger.py:363-377 | the stream's row and all its events are gone |
| MemoryEngine.Engine.NextEpoch | walrusos/engine/memory.py:41-57 | the cached epoch, or on a cold cache the persisted counter, plus one |
| MemoryEngine.Engine.Append | walrusos/engine/memory.py:104-185 | the whole new state of ledger, cache and storage, refusals by event model or ledger included |
| MemoryEngine.Engine.Fork | walrusos/engine/memory.py:299-319 | an unknown event raises KeyError with nothing changed; otherwise a new stream opens with the fork note |
| MemoryEngine.Engine.Merge | walrusos/engine/memory.py:321-358 | one two-parent event on the target |
| MemoryEngine.Engine.DeleteStream | walrusos/engine/memory.py:89-102 | blobs, rows and cache entry of the stream are gone |
| MemoryEngine.Engine.RegisterStream | walrusos/engine/memory.py:68-81 | over either ledger a known stream is left alone |
| MemoryEngine.Engine.Timeline | walrusos/engine/memory.py:277-295 | each listed event with its payload, or none when its blob is gone |
| MemoryEngine.Engine.Replay | walrusos/engine/memory.py:362-375 | the loop over the timeline, tied to the function that ReplayIsSlice is about |
| Protocol.AcceptedMeaning | walrusos/engine/replay.py:12-25 | an accepted id is id characters after an optional prefix iff it does not end in a newline; none is longer than 74 characters or contains a slash, dot, backslash, question mark or percent sign |
| Protocol.ShapeAccepted | walrusos/engine/replay.py:12-25 | every id of that shape is accepted, with or without one final newline, and so is no id |
| Replay.HeldIsBestSuffix | walrusos/engine/replay.py:104-117 | the multiplicity of a capability is the maximum over earlier points of grants minus revocations since |
| Replay.TrackStep | walrusos/engine/replay.py:104-117 | the tracker's lists hold exactly those multiplicities after every event, kept or dropped |
| Replay.HasCapabilityMeaning | walrusos/engine/replay.py:170-195 | the list tests decide the capability predicate: holding nothing, or holding what the event needs |
| Replay.LastRevocationLiftsRestriction | walrusos/engine/replay.py:112-193 | an agent whose only capability is revoked may do everything again |
| Replay.ReplayEvents | walrusos/engine/replay.py:57-197 | the loop returns exactly the events before the first that is named as the stop, or is later than the stop time with both naive or both aware, as far as they are kept, and the named one; each once and in order |
| Replay.ReplayedMeaning | walrusos/engine/replay.py:84-98 | the same for the function the other results are about |
| Replay.SignedKeptIff | walrusos/engine/replay.py:131-165 | a signed event passes verification iff it has a canonical hash, equal to its content hash if it is a memory event that has one, and the key at hand, its own or that of its agent's latest registration, verifies it |
| Replay.CapableKeptIff | walrusos/engine/replay.py:167-195 | the capability check drops an event iff its agent holds something, and it is a memory append without "write" or a fork without "fork" |
| Replay.ChecksCombine | walrusos/engine/replay.py:121-195 | each flag asks for its own check, both for an acceptable blob id |
| Replay.FirstGrantRestricts | walrusos/engine/replay.py:104-193 | the first grant to an agent restricts it to what was granted |
| Replay.EarlierTimeIsPrefix | walrusos/engine/replay.py:91-98 | replay to an earlier time is a prefix of replay to a later one, for events in any order |
| Replay.EventStopIsPrefix | walrusos/engine/replay.py:87-89 | replay to an event, without it, is a prefix of the full replay; to an unknown event it is the full replay |
| Replay.KeepsPrefix | walrusos/engine/replay.py:85-195 | what is kept of fewer events is a prefix of what is kept of more |
| Replay.VerifiedIsSubsequence | walrusos/engine/replay.py:130-195 | replay with more verification is a subsequence of replay with less |
| Replay.ProjectionContinues | walrusos/engine/time_travel.py:143-156 | projecting to a later time continues the projection to the earlier one, errors included |
| Replay.FoldAppend | walrusos/engine/time_travel.py:151-155 | projecting two runs of events is projecting one and then the other, the first error ending it |
| Replay.FoldOne | walrusos/engine/time_travel.py:151-155 | no event changes nothing, and one event is applied once |
| Signatures.SignedMemoryAccepted | walrusos/engine/replay.py:131-151 | replay accepts a signed memory event of a log iff its stored text is the canonical one and any key at hand verifies it |
| Signatures.SignedMemoryIsDropped | walrusos/engine/event_store.py:56-81 | over every run of appends, whatever the clock and the network, verified replay keeps no signed memory event with a payload |
| Signatures.RecoveredThenReplayed | walrusos/engine/recovery.py:101-126 | a signed event that recovery verified passes replay's signature test iff its content hash does |
| EventLog.HashInjective | walrusos/engine/event_store.py:35-41 | the event hash determines the payload text and the previous hash |
| EventLog.ChainIdInjective | walrusos/engine/event_store.py:35-67 | the id at the end of a chain determines the whole chain of payload texts |
| EventLog.SameHeadSameHistory | walrusos/engine/event_store.py:55-67 | two logs have the same head iff they have the same whole payload history |
| EventLog.AppendCollidesIff | walrusos/adapters/sqlite_ledger.py:256-277 | an append hits the primary key iff some other workspace once had exactly the history the append would make |
| EventLog.RunSound | walrusos/engine/event_store.py:43-109 | every run of appends, whatever the clock read and the latest-hash queries answered, keeps ids distinct, every row one of the calls with its content's hash, and the index the one built from the rows |
| EventLog.RunRecordsFirstSteps | walrusos/engine/event_store.py:43-109 | over every run the table holds exactly the steps whose event hash no earlier step had: one whole record each, in order |
| EventLog.RunDocuments | walrusos/engine/event_store.py:101-108 | over every run the index holds a document for exactly the rows with tokens: all their string values in order, joined by spaces, with workspace and agent |
| EventLog.RunRetained | walrusos/engine/event_store.py:43-109 | over a content-addressed network every blob of the run is still what its event put there, whatever the clock |
| EventLog.RunLinked | walrusos/engine/event_store.py:43-109 | with advancing clocks every workspace is one hash chain |
| EventLog.LatestIsHead | walrusos/adapters/sqlite_ledger.py:279-290 | with advancing clocks the latest event by timestamp is the head of the chain |
| EventLog.EventStoreEngine.GetLatestEventHash | walrusos/adapters/sqlite_ledger.py:279-290 | the scan returns the id of some event with the latest timestamp, or nothing for a new workspace |
| EventLog.LatestIdIsHead | walrusos/adapters/sqlite_ledger.py:279-290 | on a linked log that id is the head of the chain |
| EventLog.EventStoreEngine.TextValues | walrusos/engine/event_store.py:102-105 | the string values of a payload, in order |
| EventLog.EventStoreEngine.Append | walrusos/engine/event_store.py:43-109 | an accepted append adds exactly one row, the whole record of the call with its content's hash and the latest hash found, and indexes its joined string values iff it is a memory event with tokens; a refused one leaves only its blob; with a later clock a linked log stays linked |
| Recovery.RecoversSurvivors | walrusos/engine/recovery.py:46-157 | from faithful headers, an empty ledger gets exactly the events with an acceptable blob id and signature, in order; the count is their number |
| Recovery.RecoveredIff | walrusos/engine/recovery.py:57-139 | an event is dropped iff its blob id is malformed, or it is signed and its payload, found and not marked lost, has no canonical form or names a key that does not verify it; otherwise it comes back with the payload the network holds, or the marker |
| Recovery.HeaderKinds | walrusos/engine/recovery.py:82-84 | a header without a type counts as a memory event; one with an unknown type ends recovery with what was written so far |
| Recovery.RecoveryRebuilds | walrusos/engine/recovery.py:46-157 | with retained blobs the same events with the same payloads come back in order and all are counted |
| Recovery.TableRestoredIff | walrusos/engine/recovery.py:82-98 | the table itself comes back iff every payload carries its event's timestamp and nothing was anchored |
| Recovery.IndexRebuiltIff | walrusos/engine/recovery.py:141-150 | the rebuilt index is the appended one iff no event with tokens has a payload saying it was lost |
| Recovery.RecoveredLatestIff | walrusos/engine/recovery.py:94-98 | which recovered events may be taken for the latest of their workspace |
| Recovery.HeadSurvivesIff | walrusos/engine/recovery.py:94-98 | the workspace's last event is its only latest one after recovery iff every other event of it has a payload with an earlier timestamp |
| Recovery.LatestIsLost | walrusos/engine/recovery.py:94-98 | when no payload carries a timestamp, any recovered event of a workspace may be taken for its latest |
| Recovery.RunThenRecover | walrusos/engine/recovery.py:31-157 | append any run, clocks that tie or step back included, wipe, recover: exactly the steps that were not refused come back, in order, each under its id and with its payload, all counted, and the index iff the condition above |
| Recovery.DisasterRecoveryEngine.Recover | walrusos/engine/recovery.py:57-157 | the loop over the headers, drops, errors and partial progress included |
| TimeTravel.SortBySnoc | walrusos/engine/time_travel.py:21-27 | an event no earlier than the others comes last in the sorted lineage |
| TimeTravel.GrowingLineage | walrusos/engine/time_travel.py:21-27 | appends with new ids and advancing clocks extend each lineage by exactly the events added to that stream |
| TimeTravel.LineagesShareTable | walrusos/adapters/in_memory.py:110-193 | any two lineages of a ledger take their events from one table: equal ids are equal events |
| TimeTravel.Agree | walrusos/engine/time_travel.py:41-48 | the number of leading events with equal ids, after which the ids differ or a lineage ends |
| TimeTravel.ForkPoint | walrusos/engine/time_travel.py:53-60 | the first event that the other lineage's opening fork names, or none when there is none |
| TimeTravel.SameRootSplit | walrusos/engine/time_travel.py:37-48 | streams of one ledger whose lineages have the same root are split at the longest common prefix, ending in the ancestor |
| TimeTravel.OtherRoots | walrusos/engine/time_travel.py:50-62 | with different roots, the ancestor is the event at which the second lineage's opening fork branches off the first, and the whole fork is divergent; without such a fork there is none and both are |
| TimeTravel.SymmetricIff | walrusos/engine/time_travel.py:29-62 | on two streams of a ledger `find_lca` is symmetric iff the roots agree or neither lineage opens with a fork of the other |
| TimeTravel.ForkThenDiff | walrusos/engine/time_travel.py:64-102 | after a fork and any later appends to either branch, the ancestor is the event forked at, with the original's later events and the whole fork |
| TimeTravel.ForkLineages | walrusos/engine/time_travel.py:74-102 | after the call the fork's lineage is the fork event alone and every other lineage is unchanged |
| TimeTravel.ReversedDiffDiffers | walrusos/engine/time_travel.py:50-62 | asked the other way round, `find_lca` never gives the mirrored answer for a fork |
| TimeTravel.MergeParentIsHead | walrusos/engine/time_travel.py:109-113 | whatever the ancestor, a merge's parent is the target's last event, or genesis when it is empty |
| TimeTravel.MergeIdIff | walrusos/engine/time_travel.py:115-123 | two merge events have the same id iff they have the same streams and the same number of divergent events |
| TimeTravel.SecondMergeReusesIdIff | walrusos/engine/time_travel.py:104-141 | a second merge, after any growth of both streams with new ids, reuses the first one's id iff the source has not grown; it is then its own parent if the target has not grown either |
| TimeTravel.RepeatedMergeReplaces | walrusos/engine/time_travel.py:104-141 | merging again, whatever was appended since, replaces the first merge event and lists it twice iff nothing was added to the source; its parent is the target's last event, or itself |
| TimeTravel.TimeTravelEngine.FindLca | walrusos/engine/time_travel.py:29-62 | the two loops compute that function of the two lineages |
| TimeTravel.TimeTravelEngine.ListEvents | walrusos/adapters/in_memory.py:187-193 | the stream's events in append order |
| TimeTravel.TimeTravelEngine.GetStreamLineage | walrusos/engine/time_travel.py:21-27 | the stable sort of the listing by timestamp |
| TimeTravel.TimeTravelEngine.ForkStream | walrusos/engine/time_travel.py:64-102 | accepted iff the event is listed for the original and stored, else ValueError with nothing changed; one event opens the new stream, with the event forked at as parent and a payload naming new stream, original and event |
| TimeTravel.TimeTravelEngine.MergeStreams | walrusos/engine/time_travel.py:104-141 | one event is appended to the target, its parent the target's last event or genesis, its payload naming both streams and the number of the source's events beyond the common prefix; its id is returned |
| EventMesh.QueuesMatchSubscriptions | walrusos/runtime/event_bus.py:44-75 | in every state an agent has a queue for a stream iff it has a live queue subscription there, and the table counts those |
| EventMesh.DeliveredIsOwed | walrusos/runtime/event_bus.py:107-188 | over every interleaving, polled events followed by queued ones are the events published since, in order, once per live queue subscription |
| EventMesh.OneSubscription | walrusos/runtime/event_bus.py:44-62 | a single subscription is owed every event published since, exactly once |
| EventMesh.KeyInjective | walrusos/runtime/event_bus.py:60-61 | queue names of colon-free stream ids determine agent and stream |
| EventMesh.EventMesh.Subscribe | walrusos/runtime/event_bus.py:44-62 | the subscription is added last, and a queue is opened only if there is none |
| EventMesh.EventMesh.Unsubscribe | walrusos/runtime/event_bus.py:64-75 | all of the agent's subscriptions to the stream go, with a callback or without, and its queue; the others stay in order and no other stream is touched |
| EventMesh.StreamsDoNotLeak | walrusos/runtime/event_bus.py:107-188 | with colon-free stream ids nothing of another stream is ever polled or left waiting |
| EventMesh.CollisionLeaks | walrusos/runtime/event_bus.py:107-127 | two streams with one queue name: an agent's queue receives the other stream's event |
| EventMesh.ColonLeaks | walrusos/runtime/event_bus.py:60-61 | any stream id with a colon collides with some other agent and stream |
| EventMesh.LeakFreeIff | walrusos/runtime/event_bus.py:44-188 | over given agents and streams no run ever delivers or leaves a foreign event iff queue names determine the stream; the SDK's UUIDs do |
| EventMesh.ColonFreeLeakFree | walrusos/runtime/event_bus.py:44-188 | streams without a colon never leak, whatever the agents |
| EventMesh.EventMesh.PublishEvent | walrusos/runtime/event_bus.py:107-127 | one copy goes to the queue of every queue subscription of the stream, in order |
| EventMesh.EventMesh.Poll | walrusos/runtime/event_bus.py:175-188 | the queue is drained in order and stays registered |
| Recall.TokenBudget.Add | walrusos/engine/token_budget.py:12-27 | a text is charged iff it fits |
| Recall.Estimate | walrusos/engine/token_budget.py:7-9 | at least one token, and at most four characters per token up to rounding |
| Recall.Overlap | walrusos/engine/ranking.py:20-30 | a share in [0, 1], positive iff query and content have a significant word in common |
| Recall.OverlapIsShare | walrusos/engine/ranking.py:20-30 | it is the number of the query's words found in the content, divided by the number of the query's words |
| Recall.ScoreRange | walrusos/engine/ranking.py:68-95 | importances in [0, 1] give scores in (0, 1.2] |
| Recall.ScoreTradeoff | walrusos/engine/ranking.py:53-95 | relevance, recency and importance weigh 5 to 3 to 2 |
| Recall.ScoreBoost | walrusos/engine/ranking.py:83-95 | summaries and decisions score 1.2 times as much; an importance of zero counts like a missing one |
| Recall.NewerScoresHigher | walrusos/engine/ranking.py:53-95 | of two events alike but for their time the newer scores higher |
| Recall.RankedIsSort | walrusos/engine/ranking.py:73-101 | the ranking is the stable sort by descending score, losing nothing |
| Recall.RankEvents | walrusos/engine/ranking.py:33-101 | the method returns that ranking, nothing for nothing |
| Recall.LatestCheckpoint | walrusos/engine/context.py:170-181 | a checkpoint summary with the largest epoch, whenever there is one |
| Recall.RecallSound | walrusos/engine/context.py:162-250 | for every stream, query and budget, tokens used are the sum of the parts' estimates, at most max(0, budget), with one distinct source per part |
| Recall.RecallLength | walrusos/engine/context.py:242-250 | a context that is not empty has at most 9 * used - 2 characters |
| Recall.RecallQuotes | walrusos/engine/context.py:150-240 | each part is the whole content of the event its source names, under its author, or the first eight characters of its agent's id, or "agent"; the opening part is the summary of a checkpoint with the largest epoch; parts of the last phase are marked as recent |
| Recall.LengthBoundTight | walrusos/engine/token_budget.py:7-9 | the bound is attained by every context of seven-character parts |
| Recall.RankedPartIsGreedyPrefix | walrusos/engine/context.py:195-216 | the ranked part is the longest prefix of the ranked candidates that fits |
| Recall.AddRankedLines | walrusos/engine/context.py:197-216 | the second phase's loop over the mutable budget |
| Recall.AddRecentLines | walrusos/engine/context.py:224-240 | the third phase's loop over the mutable budget |
| Recall.EverythingFits | walrusos/engine/context.py:190-240 | when all candidates fit, every event with content that is no summary is among the sources |
| Recall.MostRecentPresentIff | walrusos/engine/context.py:218-240 | the most recent event is present iff it already was, or has content and its line still fits |
| Recall.BothRecentPresentIff | walrusos/engine/context.py:218-240 | of the two most recent events, the second is present iff it already was, or has content and its line still fits after the first's |
| Recall.MostRecentAreLatest | walrusos/engine/context.py:219-223 | the two most recent events are those with the largest epochs, latest first |
| Recall.BuildRecallContext | walrusos/engine/context.py:134-250 | the context is those parts in order with a blank line between two and nothing else; one source per part; the opening is there iff the latest checkpoint has a summary that fits; the reported counts add up |

## Left out

- Concurrency inside one wave: `gather` is modelled as running its tasks one after another; their order does not affect the result here because each run touches its own task and its outcome is a parameter. Cancellation is left out.
- Prompts, language models, `synthesize`, `match_agent`, the dependency context of a prompt, task callbacks and presence.
- HTTP, Sui anchoring, retries, sessions, the CLI and the dashboard. The anchor's digest is a parameter of an append.
- The legacy single-key mode of the blob adapter beyond its envelope, `shred_key`, `export_key`, and the base64 and UUID text of keys and ids. Bytes stand for themselves.
- MemoryEngine.Engine.Append: does not model the vector upserts, the workspace check, and the tags, importance, summary, project and signature fields that an event repeats from its payload; the index is covered by `VectorIndex`, and the others do not affect streams.
- Event ids of memory streams are parameters, because an unsigned event's id contains the clock and a nonce and a signed event's is the hash in its signature block. They may repeat, but are not empty and not the genesis marker.
- The JSON text of a snapshot blob, and `checkpoint`, `resume`, `summarize` and `verify_event` of the memory engine. `resume` resets the epoch cache and leaves the invariant proved here.
- Reads between concurrent appends: calls to one engine are serial.
- StreamRuns.LedgersAgree: does not cover a second engine over the in-memory ledger, because that ledger keeps no epoch counter; InMemoryRestartIff says when such an engine still draws later epochs. Nor repeated event ids, which one ledger refuses and the other overwrites.
- MemoryEngine.Engine.DeleteStream: does not model the vector deletions, as for Append.
- The order of the keys inside a stored payload's JSON text: payloads that differ in it alone are one payload here.
- Database failures other than a repeated primary key.
- The memory-event row that `EventStoreEngine.append` adds beside its protocol event, and the folds of `replay_agent` and `replay_workspace`, which skip malformed events.
- A payload in the blob store that is JSON but not an object; the log stores objects only.
- A `target_agent_id` that is a list or an object: replay raises an uncaught TypeError on it (replay.py:108 and 115), where the model tracks it like any other value.
- Signed forks and merges: with a key the source calls `.hex()` on a string.
- Topic subscriptions, `watch`, callbacks and the bridge of the event mesh; only queued delivery is modelled.
- `build_context`, the older context builder, and the removal of internal payload keys before recall: an item's content is given.
- Recall uses an item's id where the source prefers `event_id` and falls back to `id`.
- Rounding of floating-point scores.
