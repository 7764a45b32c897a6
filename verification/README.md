# A verified model of the MEMT ring-buffer table

`probing` keeps time series in MEMT tables: one writer appends variable-length rows to a ring of
fixed-size chunks in shared memory, and any number of threads and processes read it without a lock.
This project models that table, the lease protocol that protects its readers, the supervisor that
replaces long-running server components, and the CSV printer of the command line, and proves
properties of the models. `dafny verify dfyconfig.toml` checks all of it.

## How it is organised

* **Lease protocol** (`Lease*.dfy`, `Chunks.dfy` for what it shares with the table). A transition system
  with one step for each atomic load, store or compare-exchange of `pin_chunk`, `acquire_process_lease`,
  `release_process_lease`, `ensure_current_process`, `chunk_ts_range` and `advance_chunk_raw_detailed`,
  and for processes that start, fork and die. Steps interleave freely. `LeaseInv.Inv` is an inductive invariant,
  kept by exactly the steps that do no harm (`LeaseInv.Benign`, `LeaseLimits.StepExactly`); the
  theorems are in `LeaseSafety`, `LeaseExact` (pids never reused) and `LeaseLimits` (where it fails, and
  exactly when it does not). `LeasePins` says what a pin, an adoption, a drop and a range read come to
  when nobody else moves, `LeaseWalks` when a pin is refused in any interleaving.
* **Table** (`Schema`, `RowCodec`, `RowCheck`, `Dedup`, `Ring`, `RingInv`, `RingSteps`, `Stream`).
  A table is a value `Ring.Tab`: bytes, chunk headers, counters, dedup memory. `RingInv.TableOk` ties
  it to a ghost history of rows. `MemTables.MemTable`, `RowWriters.RowWriter`, `Dedup.DedupState`,
  `Cursors.RowCursor`, `Cursors.RowIter`, `Cache.CachedReader` and `Cache.CachedCursor` are the
  mutable objects of the source, each method proved equal to the function that specifies it.
* **Whole runs** (`RingRuns`, `RingReads`, `RingOrder`, `RingOutcomes`, `Repeats`, `CacheRuns`, `Validate`,
  `ValidateExact`). Theorems about every state a table can reach from `init_buf` by appends, pushes,
  streamed rows, dropped rows, partial writes, advances and re-attached writers.
* **Both layers** (`LeaseWriter`, `Joint`, `JointHeads`, `Pinned`, `Pruned`). A joint run pairs each
  protocol step with the table operation it is: stored bytes are partial writes, publishing the extent commits a row whose
  record is in place, restoring or recycling the target is the refused or done advance. The lease
  protocol says a pinned chunk keeps its generation; the table says what its bytes decode to.
* **Readers of accepted buffers** (`Readers`). Iterator, columns by number, cursor and cached cursor
  with the unchecked reads of the source as preconditions, driven over any accepted buffers.
* **Layout**, **Supervisor**, **Csv**.

Where a promised property turned out not to hold, the model keeps the code as it is, shows an input
or a run that breaks the property, and states when it holds:

* a reclaim whose compared word left the slot and came back frees a live lease
  (`LeaseLimits.StaleReclaimLosesPin`); without pid reuse it is safe exactly when the recorded owner
  is dead at the compare-exchange (`LeaseLimits.ReclaimExact`);
* a grandchild that is given its grandparent's pid takes an inherited pin for its own, one that no
  lease covers (`LeaseLimits.TagReuseLosesPin`) or one of a generation that is gone although a lease
  covers it (`LeaseLimits.OldGenerationLosesPin`); a child reads an inherited pin without taking a
  lease exactly when the pin carries its pid (`LeaseLimits.ForkReadableExact`), and the fork is safe
  exactly when such pins are covered, of the chunk's generation, and their slots in nobody's hands
  (`LeaseLimits.ForkExactly`);
* a cell of 2^31 bytes or more is written but read back as a reference (`RowCodec.VarCellExact`);
* streaming a row without cells commits without asking for room (`Stream.NoCells`,
  `RingOutcomes.NoRoomWitness`);
* dedup writers refuse rows of more than 64 columns, and every refused push still drops a chunk
  (`RingOutcomes.TooManyDedupColumns`, `RingOutcomes.WideTableEmpties`);
* the timestamp column index is cut to 16 bits, so `validate_buf` can reject what `init_buf` made
  (`Validate.WriterOutputValid`, `Validate.WideTableRejected`);
* a remote listener start that cannot be spawned leaves the state `Failed` while the old listener
  goes on (`Supervisor.SpawnFailureWitness`), and the old listener's end leaves `Stopped` while a
  candidate is starting (`Supervisor.StoppedWhileStartingWitness`);
* a table without a column name does not survive printing and parsing (`Csv.CsvRoundTrip`).

Comments in the source that differ from its code, where the model follows the code: the `RowIter`
and `RowCursor` comments say that column reads do not re-check the pin, but every read does
(probing/memtable/src/row.rs:612-617, 650-734, 770-776); the comment on `Header::header_size` says 64, the
code asserts 128 (probing/memtable/src/layout.rs:91, 255); the comment on `Header::ts_col`
names `timestamp` only, the code also takes `ts` (probing/memtable/src/layout.rs:101-106,
probing/memtable/src/raw.rs:17).

## Model

| member | source | states |
|---|---|---|
| LeaseWorld.StepKeeps | probing/memtable/src/row.rs:138-412 | every atomic step of every reader, of the writer and of the operating system keeps the protocol invariant, unless it does harm: it reclaims a slot that a live process holds or claims, or forks a child whose tagged pins are not covered and current |
| LeaseLimits.StepExactly | probing/memtable/src/row.rs:138-412 | the exact frontier: from a state that satisfies the invariant a step leads to one that does if and only if it does no harm; steps without a stale reclaim and without a reused tag do none |
| LeaseLimits.GoodRunExactly | probing/memtable/src/row.rs:138-412 | a run from a fresh table is free of harmful steps if and only if all its states satisfy the invariant |
| LeaseSafety.RunHolds | probing/memtable/src/row.rs:138-412 | the invariant holds in every state of every interleaving from a fresh table |
| LeaseSafety.PinSafety | probing/memtable/src/row.rs:242-412 | while a pin is readable its chunk keeps the pinned generation, its extent never falls below the captured one, and the bytes below the captured extent never change, although the writer scans 16 slots one by one |
| LeaseSafety.SnapshotProvenance | probing/memtable/src/row.rs:376-405 | the snapshot of every readable pin, an inherited one included, is the generation, extent and bytes its chunk had published at one earlier step of the run, the one that loaded `used` |
| LeaseSafety.LeaseAccounting | probing/memtable/src/row.rs:207-356 | in every reachable state the recorded references cover the live owner's outstanding pins, no other process has a pin on the slot, and a zero-reference claim has exactly one claimant |
| LeaseExact.ExactAccounting | probing/memtable/src/row.rs:207-356 | when pids are never reused, recorded references equal the outstanding pins |
| LeaseSafety.OnlyOwnerChangesLease | probing/memtable/src/row.rs:138-205 | the lease word a live process holds or claims changes only in a step of that process: no adoption, failed adoption or drop in a forked child, no scan and no death elsewhere touches it |
| LeaseSafety.ReadableHasOwnLease | probing/memtable/src/row.rs:155-205 | a pin, also an inherited one, is readable only with a lease under the reader's own pid while the chunk is at the pinned generation |
| LeasePins.PinIsSteps | probing/memtable/src/row.rs:242-412 | from any state, while nobody else moves, a pin is got if and only if the chunk is not empty and the walk over the 16 slots ends at one to take (free, of a dead owner, left over from an earlier process) or at the process's own slot with fewer than 2^32 - 1 references; it has the chunk's generation, extent and bytes, the slot reads one reference or one more, and nothing else has changed; otherwise nothing has |
| LeaseWalks.RefusedOnlyWhenHeld | probing/memtable/src/row.rs:242-374 | in any interleaving a pin or adoption is refused for want of a lease only if in this very walk each of the 16 slots was passed over as held or claimed by others, or had its claim of it taken away, or if the own slot has 2^32 - 1 references; a lost compare-exchange never costs the walk a slot |
| LeasePins.AdoptIsSteps | probing/memtable/src/row.rs:155-205 | likewise for an inherited pin in a forked child: it becomes the child's if and only if the walk gets a lease and the chunk is not empty and at the pinned generation; a lease taken in vain is given back and the pin is invalid |
| LeasePins.DropIsSteps | probing/memtable/src/row.rs:138-231 | dropping a readable pin gives back exactly one reference, and the slot with the last one |
| LeasePins.ForeignDrop | probing/memtable/src/row.rs:138-153 | dropping a pin of another process, or an invalid one, changes no shared memory |
| LeasePins.FailedPinRetries | probing/memtable/src/row.rs:376-412 | a pin that fails its re-check gives its lease back and starts again, until 64 attempts are used up |
| LeasePins.RangeIsSteps | probing/memtable/src/memtable.rs:90-113 | an undisturbed range read answers the bounds in the chunk header |
| LeaseLimits.ReclaimExact | probing/memtable/src/row.rs:324-356 | in every state of every run that never reuses a pid, a successful reclaim, stale or not, keeps the whole invariant if and only if the recorded owner is dead at the compare-exchange |
| LeaseLimits.ReclaimOfHeldOrFree | probing/memtable/src/row.rs:324-356 | with pids reused too: a reclaim keeps the accounting if and only if nobody holds or claims the slot, and always without a stale comparison |
| LeaseExact.RunClaimsMade | probing/memtable/src/row.rs:280-302 | when pids are never reused, a zero-reference word of a live process has its claimant in every reachable state |
| LeaseLimits.StaleReclaimLosesPin | probing/memtable/src/row.rs:233-240 | a run in which a lease word leaves and returns between load and compare-exchange, a live lease is freed, and the pinned chunk is recycled |
| LeaseLimits.TagReuseLosesPin | probing/memtable/src/row.rs:161-170 | a run in which a grandchild gets the pid that tags an inherited pin and the pinned chunk is recycled |
| LeaseLimits.ForkReadableExact | probing/memtable/src/row.rs:161-170 | a forked child can read an inherited pin at once if and only if the pin carries the child's pid |
| LeaseLimits.ForkExactly | probing/memtable/src/row.rs:138-170 | a fork keeps the invariant if and only if every inherited pin tagged with the child's pid finds its slot covered by word, references and start time, its chunk at the pinned generation, and no inspector, scan or reset under way to take the slot |
| LeaseLimits.ForkAccounting | probing/memtable/src/row.rs:138-170 | the lease accounting alone survives a fork if and only if each slot covers the tagged pins |
| LeaseLimits.OldGenerationLosesPin | probing/memtable/src/row.rs:161-170 | a reachable state and a fork that keeps the accounting, with every tagged pin covered, after which the child reads a pin of a generation that is gone |
| LeaseSafety.RangeSound | probing/memtable/src/memtable.rs:90-113 | a time range read between two equal generation reads covers every timestamp of that generation that was committed when `used` was loaded |
| Pruned.StampsWritten | probing/memtable/src/raw.rs:36-55 | in any joint run the timestamps committed in a chunk are those of the rows reported as written to its generation |
| Pruned.PrunedRowsCovered | probing/memtable/src/memtable.rs:90-113 | in any joint run a bracketed range covers the timestamp of every row reported as written to that chunk and generation when `used` was loaded |
| Joint.JointLinked | probing/memtable/src/raw.rs:245-365 | in every state of a joint run of protocol and table, the table's payload bytes, extents and generations are those of the protocol's memory, but for a chunk in the middle of its reset |
| Joint.AdvanceAnswersScan | probing/memtable/src/raw.rs:315-335 | the `pinned` answer of every table advance is what the deciding pass over the lease slots saw: one slot with an owner taken for alive, or every slot found or made free |
| LeaseWriter.PassesCounted | probing/memtable/src/raw.rs:315-335 | after a pass over the 16 slots that met a live owner the writer looks again, up to 1024 times; a pass that met none, and the 1024th, is followed by the deciding one, which refuses exactly if it met a live owner |
| Pinned.PinnedRowsStable | probing/memtable/src/row.rs:803-828 | in any joint run, what an iterator over a readable pin's extent decodes in state k is exactly the rows reported as written to that chunk and generation when `used` was loaded |
| Pinned.AppendIsSteps | probing/memtable/src/raw.rs:245-281 | from any joint run at rest, storing the record byte by byte, noting the timestamp and publishing leads to the table with the row appended |
| Pinned.AdvanceIsSteps | probing/memtable/src/raw.rs:294-365 | from any joint run at rest, the steps of an advance lead to the advanced table, refused exactly when a slot of the target is owned |
| Pinned.PushIsSteps | probing/memtable/src/memtable.rs:1027-1044 | every push is a run of protocol steps with the scan's answer |
| Pinned.JointStart | probing/memtable/src/raw.rs:668-688 | every initialised table begins a joint run |
| JointHeads.JointShown | probing/memtable/src/raw.rs:36-45 | in every state of a joint run, state and timestamp bounds of every chunk in memory are those of the table, but for a timestamp noted and not yet published, the closed target, the old chunk sealed early and the bounds reset early |
| JointHeads.EmptyExactly | probing/memtable/src/row.rs:376-384 | in every state of a joint run a chunk reads as empty if and only if it was never written to or is the target of an advance under way |
| Schema.FixedRoundTrip | probing/memtable/src/schema.rs:44-88 | decoding the bytes of a fixed-size value gives the value back |
| Schema.FixedBytesBack | probing/memtable/src/schema.rs:44-88 | encoding what fixed-size bytes decode to gives the bytes back, so the decoding loses nothing |
| Bytes.Le4Sum | probing/memtable/src/schema.rs:44-88 | the encoded bytes are those of the number to base 256, least significant first |
| Schema.TwosComplement | probing/memtable/src/schema.rs:44-88 | negative numbers are encoded as their two's complement |
| Schema.EncodeInto | probing/memtable/src/schema.rs:44-88 | writes exactly the encoding at the offset, leaves every other byte alone and returns its size |
| Schema.FromCode | probing/memtable/src/schema.rs:124-137 | accepts the codes 1 to 9 and no others, and inverts the numbering |
| RowCodec.RowRoundTrip | probing/memtable/src/row.rs:650-734 | an encoded row reads back cell for cell, by cursor and by column number |
| RowCodec.IndexedAgreesEverywhere | probing/memtable/src/row.rs:441-460 | on any bytes, a row the cursor reads to its end is read alike by every column number, inline or referenced |
| RowCodec.IndexedAgrees | probing/memtable/src/row.rs:441-460 | on any bytes, up to the column where the cursor goes stale, access by number agrees with it |
| RowCodec.TryColOffset | probing/memtable/src/row.rs:441-455 | the loop over earlier columns gives the recursive column offset, or nothing |
| RowCodec.ResolveRef | probing/memtable/src/row.rs:96-124 | a resolved reference has its prefix and value between the chunk header and the chunk end |
| RowCodec.VarCellExact | probing/memtable/src/row.rs:96-124 | an inline cell reads back if and only if it is shorter than 2^31 bytes; a longer one never gives the value written |
| RowCodec.RowStable | probing/memtable/src/row.rs:96-124 | a row that decodes within a committed prefix decodes alike in every buffer that agrees on that prefix and in every larger extent |
| RowCodec.WalkAppend | probing/memtable/src/row.rs:803-828 | one more whole record makes the iterator yield exactly one more row after the same earlier ones |
| Cursors.RowCursor.Next | probing/memtable/src/row.rs:650-768 | answers the codec's cell and moves past it, or answers zero or empty and stays stale |
| Cursors.BlankIsZero | probing/memtable/src/row.rs:650-768 | what a stale cursor answers encodes to zero bytes: zero, or nothing with length zero |
| Cursors.ReadWholeRow | probing/memtable/src/row.rs:650-768 | a cursor driven over all columns reads the row of the codec and is stale exactly when there is none |
| Cursors.RowIter.Next | probing/memtable/src/row.rs:803-828 | yields the first record of the remaining walk and leaves the rest of it |
| Cursors.Collect | probing/memtable/src/row.rs:803-828 | iteration ends on any bytes and yields the records of the walk |
| Dedup.Lookup | probing/memtable/src/dedup.rs:43-59 | a lookup answers if and only if the value is as long as the minimum, its key is remembered, and length prefix and bytes at the remembered offset are those asked for; the answer is that offset |
| Dedup.DedupState.CommitRow | probing/memtable/src/dedup.rs:81-85 | all staged entries enter the map in order and none stays staged |
| Dedup.DedupState.Find | probing/memtable/src/dedup.rs:43-59 | the same about the current map and the bytes of the buffer |
| Repeats.RepeatTakesFour | probing/memtable/src/memtable.rs:291-359 | in any run: after a row with a long enough text or bytes cell is written, a later row of the same chunk with that value in that column takes four bytes for it, unless another value took its hash key; the row is taken exactly if the sizes of its cells fit |
| Repeats.RowTakes | probing/memtable/src/memtable.rs:304-320 | every cell takes its own size, or four bytes for text or bytes of at least the minimum length; the row is taken exactly if that fits the chunk, with dedup and at most 64 columns, and the extent grows by just that |
| Repeats.HelloTwice | probing/memtable/src/dedup.rs:43-59 | a run in which `hello` is pushed twice into a chunk of 64 bytes: 13 and 8 bytes, both rows held |
| Repeats.MinLenInForce | probing/memtable/src/dedup.rs:30-37 | over any run the minimum length is the one last asked for since the dedup writer was attached, advances included |
| MemTables.MemTable.WriteRowBytes | probing/memtable/src/raw.rs:245-281 | succeeds exactly when the row fits, and then the table is the one with the row committed inline |
| MemTables.MemTable.AppendDedupBytes | probing/memtable/src/memtable.rs:291-359 | succeeds exactly with at most 64 columns and room, and then bytes, header and memory are those of the dedup append |
| MemTables.MemTable.AppendRow | probing/memtable/src/memtable.rs:1015-1025 | schema check and append equal the specification; a refusal changes nothing |
| MemTables.MemTable.AdvanceRaw | probing/memtable/src/raw.rs:294-365 | a pinned target only counts a blocked write; a free one is recycled, the old chunk sealed, overwritten rows counted |
| MemTables.MemTable.TryPushRow | probing/memtable/src/memtable.rs:989-1044 | outcome and table are those of append, advance, append again |
| MemTables.MemTable.ValidateRowSchema | probing/memtable/src/raw.rs:551-577 | answers whether number and types of the values are those of the columns |
| RowWriters.RowWriter.Put | probing/memtable/src/writer.rs:34-132 | one put, before or after `finish`, is the specified step of the open row: bytes, position, overflow mark, timestamp, staged entry; committed bytes, headers and looked-up entries stay |
| RowWriters.RowWriter.Finish | probing/memtable/src/writer.rs:136-165 | publishes or rolls back as specified; a second call changes nothing and answers false |
| RowWriters.RowWriter.constructor | probing/memtable/src/memtable.rs:238-263 | a new row starts behind the committed bytes and discards whatever an earlier one left staged |
| RowWriters.RowWriter.Drop | probing/memtable/src/writer.rs:168-176 | an unfinished row takes back its staged entries and publishes nothing |
| Stream.StreamingEqualsBatch | probing/memtable/src/writer.rs:34-165 | for every row with a cell, streaming succeeds exactly when the row fits the chunk and then gives the very same table as the batch append; otherwise only free bytes of the write chunk differ |
| Stream.StreamAgainstAppendRow | probing/memtable/src/memtable.rs:291-359 | `append_row` succeeds exactly when streaming does and the 64-column limit of dedup holds, with the same table |
| Stream.DroppedRow | probing/memtable/src/writer.rs:168-176 | a row dropped after any puts leaves headers, counters and dedup memory, and all bytes but free ones |
| Stream.NoCells | probing/memtable/src/memtable.rs:238-263 | a row without cells is the one exception: streaming and batch agree exactly when the length field has room |
| Stream.NoCellsTable | probing/memtable/src/writer.rs:136-165 | with that room both give the same table; without it the published extent lies beyond its chunk |
| RingOutcomes.NoRoomWitness | probing/memtable/src/writer.rs:136-165 | a run to a table without columns where such a row does so |
| RingRuns.StepKeeps | probing/memtable/src/memtable.rs:274-359 | every operation of every writer keeps the table invariant and moves the history of rows as its answer says |
| RingRuns.LogAt | probing/memtable/src/memtable.rs:274-359 | every state of every run from `init_buf` satisfies the table invariant |
| RingRuns.HistoryIsReported | probing/memtable/src/memtable.rs:274-287 | the history is exactly the rows reported as written, in the order of the reports |
| RingReads.DedupInvisible | probing/memtable/src/dedup.rs:43-89 | after any run, with any hash function, each chunk decodes to exactly the rows written to it |
| RingReads.SnapshotStable | probing/memtable/src/row.rs:803-828 | generations never fall, and while one lives the bytes and rows below any earlier extent stay the same through appends, overflows, half-written rows and refused recycles |
| RingReads.HeldIsWritten | probing/memtable/src/memtable.rs:274-287 | after any run the rows a chunk holds are those reported as written to its present generation |
| RingRuns.RememberedIsCommitted | probing/memtable/src/memtable.rs:291-359 | in every reachable state every remembered offset names an inline value wholly inside the committed bytes of the current chunk generation |
| RingRuns.ScriptRuns | probing/memtable/src/raw.rs:581-690 | every script of appends, pushes, advances, streamed and dropped rows is a run of every initialised table |
| RingOrder.RingRefinement | probing/memtable/src/memtable.rs:196-209 | after any run and any number of wraps, reading in logical order gives the reported rows in order without an oldest part, whose size the table counts modulo 2^32 |
| RingOrder.ChunksLogicalMeets | probing/memtable/src/memtable.rs:196-209 | the computed order lists exactly the non-empty chunks, sorted by generation and index |
| RingOrder.OrderUnique | probing/memtable/src/memtable.rs:196-209 | any two such orders are equal, so the choice of sort does not matter |
| RingOrder.Conservation | probing/memtable/src/raw.rs:336-363 | rows held plus rows overwritten are the rows written, and the ring has one writing chunk with lower chunks at its generation and higher ones one behind |
| RingOutcomes.PushAnswer | probing/memtable/src/memtable.rs:989-1044 | which of the four outcomes a push gives, from room in the current and in a fresh chunk, the pins and the schema |
| RingOutcomes.PushEffect | probing/memtable/src/memtable.rs:1027-1044 | `Written` adds one row at the end, `ReadersPinned` and `SchemaMismatch` keep the rows, `RowTooLarge` drops exactly the oldest chunk |
| RingOutcomes.TooManyDedupColumns | probing/memtable/src/memtable.rs:289-301 | more than 64 columns with dedup: no push is written, and each unpinned one drops a chunk |
| RingOutcomes.WideTableEmpties | probing/memtable/src/memtable.rs:1027-1044 | in any run, as many unblocked pushes to such a table as it has chunks write nothing and leave it without a row |
| RingOutcomes.CountersExact | probing/memtable/src/raw.rs:326-346 | the header counts, modulo 2^32, the steps that overwrote rows, and every write refused because of readers |
| RingOutcomes.TsRangeExact | probing/memtable/src/memtable.rs:100-113 | at rest the range is the exact minimum and maximum over the chunk's rows, i64 extremes included, and is missing exactly when there are none |
| Ring.RowTsExactly | probing/memtable/src/raw.rs:47-55 | the timestamp of a row is the I64 cell of the recorded column, and there is none if and only if that is none, out of range or of another type |
| Cache.ResolveKeeps | probing/memtable/src/cache.rs:58-103 | the map's keys are exactly the entries of the queue, each once, never more than the cap, and every cached range can be sliced out of the buffer, whatever its bytes |
| Cache.EvictsOldest | probing/memtable/src/cache.rs:83-103 | a new key joins the queue at its end and a full cache loses its oldest key |
| Cache.HitKeeps | probing/memtable/src/cache.rs:58-82 | a cached key is answered from the cache, whose entries and queue stay |
| Cache.Clamp | probing/memtable/src/cache.rs:30-43 | the number of entries asked for is kept from 4 to 256, and raised or lowered to that otherwise |
| Cache.CachedReader.Resolve | probing/memtable/src/cache.rs:58-103 | fast path, map and slow path together are the specified lookup |
| Cache.CachedCellIsPlain | probing/memtable/src/cache.rs:151-235 | if the entries of this generation describe the buffer, a cached read answers what the plain cursor answers and the entries still do |
| Cache.CachedCursor.Next | probing/memtable/src/cache.rs:151-235 | the cached cursor object answers what the plain cursor answers |
| CacheRuns.CacheSurvives | probing/memtable/src/cache.rs:58-103 | no operation of the writer, recycling included, makes an entry of a living generation wrong |
| CacheRuns.CachedRefinesPlain | probing/memtable/src/cache.rs:151-235 | over any history of writes, recycles and reads through one cache, each cached read gives the plain cursor's answer, which is the value written |
| Validate.ValidateChunkRows | probing/memtable/src/raw.rs:375-427 | accepts exactly when the walk ends for want of bytes and every row's references are allowed and committed |
| Validate.ValidateBuf | probing/memtable/src/raw.rs:436-548 | the loops over descriptors and chunks answer whether the buffer is accepted |
| ValidateExact.AcceptedExactly | probing/memtable/src/raw.rs:436-548 | accepted if and only if magic, version, sizes, byte order, flags and lease slots have the numbers of the format, both offsets are the least multiples of 64 that leave room, all chunks lie in the buffer, every name length is at most 54 and every type code 1 to 9, the timestamp column is none or an I64 column, and every chunk has a known state, room for its extent and whole records without a bad prefix |
| ValidateExact.RowsPassExactly | probing/memtable/src/raw.rs:375-427 | the records of an extent pass if and only if they leave fewer than four bytes and no record has a column with a negative prefix in a table without dedup or outside [40, 40 + used), read off the bytes |
| ValidateExact.BadRecordRejected | probing/memtable/src/raw.rs:375-427 | one such column in one record of one pinned chunk makes the validator reject the buffer |
| ValidateExact.Codes | probing/memtable/src/schema.rs:94-137 | which type each code 1 to 9 stands for, and the size of its cells |
| Validate.WriterHeader | probing/memtable/src/raw.rs:623-690 | after any run the dedup flag is set exactly if a dedup writer was ever attached, a chunk's state reads 0 exactly if it was never written to, 1 if it is the write chunk and 2 otherwise, and a column name is kept whole exactly up to 54 bytes |
| Validate.WriterOutputValid | probing/memtable/src/raw.rs:436-548 | after `init_buf` and any run the buffer is accepted if and only if the recorded timestamp column is none or an I64 column; always with at most 65535 columns |
| Validate.WideTableRejected | probing/memtable/src/raw.rs:623-630 | an initialised table of 65537 columns that `init_buf` lays out and `validate_buf` rejects: its timestamp column at index 65536 is recorded as column 0 |
| Readers.ReadAll | probing/memtable/src/cache.rs:58-103 | reader totality: any requests on accepted buffers, their bytes malformed and changing from one to the next, read through one cache: iteration ends, every unchecked read and slice of iterator, columns, cursor and cached cursor is in bounds, every record is answered |
| Readers.ReadCol | probing/memtable/src/row.rs:441-598 | any typed accessor on any column number reads descriptors and cells in bounds and answers the cell found there, or zero or empty |
| Readers.ColAsIsIndexed | probing/memtable/src/row.rs:441-598 | an accessor of the column's own type answers the cell that access by number finds |
| Readers.ColAsBytes | probing/memtable/src/row.rs:441-598 | an accessor of any fixed-size type on any column answers the value encoded by the bytes at the column's offset, or zero where there is no such offset or the record ends before |
| Readers.ReadCached | probing/memtable/src/cache.rs:151-235 | a cached cursor asked for cells of any types stays in bounds, and answers as the plain cursor if the entries of this generation are true |
| Readers.AcceptedInside | probing/memtable/src/raw.rs:436-548 | what acceptance gives readers: all descriptors, and the whole of each chunk, lie in the buffer |
| Layout.LayoutDisjoint | probing/memtable/src/layout.rs:262-340 | whenever `init_buf` accepts, header, column descriptors, lease slots and chunks are pairwise disjoint, inside the buffer and aligned |
| Layout.InitExactly | probing/memtable/src/raw.rs:581-621 | `init_buf` accepts a layout if and only if the buffer is aligned, there is a chunk, chunks have at least 48 bytes and a multiple of 8, there are fewer than 2^32 columns, the data offset is below 2^32, and all chunks end inside the buffer and below 2^64; both offsets are the least multiples of 64 that leave room |
| Layout.LayoutExample | probing/memtable/src/layout.rs:315-331 | one column and four chunks of 256 bytes in 4096: leases from 192 on, chunks from 1216 on |
| Layout.TsNames | probing/memtable/src/raw.rs:17 | a timestamp column is an I64 column named `timestamp` or `ts` |
| Layout.CheckedDataOffset | probing/memtable/src/layout.rs:323-331 | leaves room for all lease slots after the descriptors and is a multiple of 64 |
| Layout.TsColExact | probing/memtable/src/raw.rs:623-630 | the recorded timestamp column is the first one found if and only if its index is below 65535 |
| Supervisor.RemoteStateNames | probing/server/src/supervisor.rs:184-307 | in every reachable state `Running` names the active task and `Starting` the candidate |
| Supervisor.LateEventsHarmless | probing/server/src/supervisor.rs:250-307 | once a generation is superseded, its promotion and its end change nothing and abort nothing, ever after |
| Supervisor.ActiveAbortedOnlyBy | probing/server/src/supervisor.rs:250-271 | the active listener is aborted exactly by shutdown or by the promotion of a newer candidate |
| Supervisor.NoTaskLost | probing/server/src/supervisor.rs:184-307 | over any run a call keeps every task that it neither aborts nor reports as ended, aborts only tasks of the slot, and aborts a candidate exactly by shutdown or a start that takes effect |
| Supervisor.EndsAreTold | probing/server/src/supervisor.rs:274-307 | over any run, the end of the active listener, or of a candidate without one, leaves `Failed` with its generation, key and error, or `Stopped` without an error |
| Supervisor.FailedOnlyBy | probing/server/src/supervisor.rs:184-307 | over any run, `Failed` with generation, key and error is entered only by such an end or by a start of that key whose spawn failed with that error |
| Supervisor.StartTakesEffect | probing/server/src/supervisor.rs:184-247 | a start is ignored exactly if an unfinished listener or candidate of its key is in place; otherwise it takes the next generation and, if spawned, becomes the candidate that the state names |
| Supervisor.ShutdownStops | probing/server/src/supervisor.rs:398-422 | shutdown leaves no task and supersedes every generation handed out |
| Supervisor.GenerationsComeRound | probing/server/src/supervisor.rs:184-220 | generations count up from 1, and 1 follows 2^64 - 1 |
| Supervisor.FailedReplacementTraceless | probing/server/src/supervisor.rs:184-307 | from `Running`, starting a candidate, any late or repeated calls and then the candidate's end lead back to the very same listener and state |
| Supervisor.FailedCandidateRestores | probing/server/src/supervisor.rs:274-293 | a candidate that ends restores `Running` of the old listener exactly when there is one |
| Supervisor.SpawnFailureHidesListener | probing/server/src/supervisor.rs:207-241 | after a start that is not ignored the old listener stays, and the state reads `Failed` exactly when the spawn failed |
| Supervisor.SpawnFailureLasts | probing/server/src/supervisor.rs:226-241 | after a start that could not be spawned the state reads `Failed` beside a live listener until a call takes effect |
| Supervisor.ListenerUnnamedExactly | probing/server/src/supervisor.rs:184-307 | over all calls, a sole listener that reads `Running` stops doing so exactly at a start that takes effect and cannot be spawned |
| Supervisor.SpawnFailureWitness | probing/server/src/supervisor.rs:226-241 | a run that ends with a live active listener and state `Failed` |
| Supervisor.StoppedWhileStartingWitness | probing/server/src/supervisor.rs:295-306 | a run that ends with a starting candidate and state `Stopped` |
| Supervisor.CandidateUnnamedExactly | probing/server/src/supervisor.rs:274-307 | a step leaves a candidate without a `Starting` state exactly when the active listener ends while it is starting |
| Supervisor.SlotRunOk | probing/server/src/supervisor.rs:333-459 | a replaceable slot is `Starting` or `Running` exactly while it has a task, and names it |
| Supervisor.LateTaskEventsHarmless | probing/server/src/supervisor.rs:424-459 | events of replaced tasks change nothing, ever after |
| Supervisor.TaskLeavesOnlyBy | probing/server/src/supervisor.rs:333-459 | a task leaves its slot exactly by ending or by being aborted, and is aborted exactly by a stop or a start that takes effect |
| Supervisor.TaskEndsAreTold | probing/server/src/supervisor.rs:440-476 | over any run, the end of a slot's task leaves `Failed` with its generation, key and error, or `Stopped` without an error |
| Supervisor.TaskFailedOnlyBy | probing/server/src/supervisor.rs:333-459 | over any run, a slot's `Failed` is entered only by such an end or by a failed spawn |
| Supervisor.TaskCallsTakeEffect | probing/server/src/supervisor.rs:333-459 | when a start, a running mark or a stop of a slot takes effect, and what it leaves |
| Supervisor.RemoteListenerSlot.Start | probing/server/src/supervisor.rs:184-247 | new state and aborted generation are those of the specification |
| Supervisor.RemoteListenerSlot.Promote | probing/server/src/supervisor.rs:250-271 | answers whether the generation is the candidate's, and swaps exactly then |
| Supervisor.RemoteListenerSlot.Finished | probing/server/src/supervisor.rs:274-307 | the specified completion of candidate or active task |
| Supervisor.ServerSupervisor.Shutdown | probing/server/src/supervisor.rs:398-422 | all slots stop, and what is aborted is exactly every task of every slot |
| Supervisor.ServerSupervisor.TorchrunClusterActive | probing/server/src/supervisor.rs:174-180 | answers whether the slot has a task |
| Csv.RenderCsv | probing/cli/src/table.rs:139-166 | prints the header and the rows, one line each, short columns padded with empty cells |
| Csv.CsvRoundTrip | probing/cli/src/table.rs:130-166 | parsing by the quoting rules of section 2 of RFC 4180 gives back header and cells, whatever they contain, if and only if there is a column name |
| Csv.PlainFieldKept | probing/cli/src/table.rs:130-136 | a cell is printed as it stands if and only if it has no comma, quote, line feed or carriage return |

## Left out

- LeaseSafety.PinSafety: holds in runs without a harmful step, that is without a reclaim of a slot in use (the lease word has no version) and without a fork whose tagged pins are not covered and current; `LeaseLimits.StepExactly` shows that such a step breaks the invariant at once.
- LeaseWorld.StepKeeps: the liveness oracle reports as dead only instances that are gone; process existence, start times and instance ids are not modelled further.
- LeaseSafety.RunHolds: atomic steps interleave in one order for all; weaker memory orderings are not modelled.
- LeaseSafety.LeaseAccounting: only inequality where pids may be reused; equality is `LeaseExact.ExactAccounting`.
- RowCodec.RowRoundTrip: for cells shorter than 2^31 bytes; `RowCodec.VarCellExact` shows the limit is exact.
- RingReads.DedupInvisible: for chunk sizes up to 2^31, since prefixes and references are read as signed 32-bit numbers; the same holds for the other statements that require `RingInv.Small`.
- Stream.StreamingEqualsBatch: for rows with at least one cell; `Stream.NoCells` covers the other case. `RowWriter` trusts its caller on the schema, so runs stream matching rows.
- RowWriters.RowWriter.Put: entries staged after `finish` trip a debug assertion when the next row begins (probing/memtable/src/dedup.rs:67-73); the model is of builds without it, where they are discarded.
- RowWriters.RowWriter.Finish: requires room for the length field where nothing was put, because the source would write past the chunk.
- Validate.WriterOutputValid: for a table at rest whose pins succeed; the validator answers an error when lease slots are exhausted.
- Readers.ReadAll: the header and chunk fields are read as typed fields beside the payload bytes rather than decoded from them; pins succeed, and `str` accessors answer bytes.
- Cache.CachedCursor.Next: in the pinning process, and for rows of the reader's own buffer; `CachedCursor` and `Row::as_bytes` do not re-check the pin in a forked child.
- CacheRuns.CachedRefinesPlain: one read is one event; a row read cell by cell is several events, between which the writer may act.
- Validate.ValidateChunkRows: a length prefix of -2^31 is rejected, as in builds without overflow checks; with them the negation in the source panics (probing/memtable/src/raw.rs:412).
- Pids 0 and 2^32 - 1 do not occur: in the source they would collide with the free lease word and with the tags of a pin in adoption or invalid.
- Supervisor.RemoteStateNames: for fewer than 2^64 starts; after that generation numbers come round. The same holds for the other statements over runs of the supervisor.
- Chunk headers and the table header are typed fields of the model, not bytes of the buffer; `Layout` shows that their places do not overlap.
- Generation numbers and the 64-bit counters are unbounded; 32-bit counters wrap where the source lets them.
- `usize` is 64 bits wide in the layout arithmetic and unbounded elsewhere.
- A writer that dies in the middle of an advance: the source has no recovery for it.
- Floats are bit patterns, strings are byte sequences; UTF-8 decoding is not modelled.
- Shared-memory and file backings, discovery, unlinking, locks and reference counts: calls into the operating system.
- Unchecked pushes of rows that do not match the schema.
- Hash values: the hash is an arbitrary function.
- MEMH and MEMC tables, cluster merge, federation, SQL, HTTP, Python bindings, and the drawing of text tables and JSON.
- Turning a data frame element into text before CSV printing.
