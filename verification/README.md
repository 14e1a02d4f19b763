# HaloLog verification

A Dafny model of the protocols and fast paths of HaloLog, a structured logging library for Go, with proofs of what they
promise. `dafny verify dfyconfig.toml` checks the whole project.

The modules follow the library's packages:

- **Async ring sink** (`Ring`, `RingProof`, `RingTheorems`, `RingFlush`, `RingMath`, `Payload`). Every atomic load, compare-and-swap and
  store of producers, background writer and `Close` is one step of a transition system with any number of producers. The
  invariant is kept by every step, so the theorems hold for every schedule: exclusive slots, refinement of a bounded queue,
  conservation, no loss at close, and exactly which records a flush covers.
- **Regex masking** (`Regex`, `RegexScan`, `Masking`). Patterns are syntax trees with leftmost-first backtracking semantics
  over runes. The emptiness analysis, the three-scan shortcut, the stable sort, the merge in an array and the splice are
  proved against a description of the masked text on the raw matches.
- **JSON encoder and header caches** (`JsonString`, `Json`, `JsonParse`, `TimeHeader`, `HeaderCache`). The word-at-a-time
  detector, the escaper, the key fast path and both cached headers are proved against plain functions; a parser written from
  RFC 8259 reads every line back.
- **Lines and dispatch** (`Logging`, `Lines`, `LineRuns`, `TypedBuilder`, `Dispatch`). Pooled states are objects; a line's meaning is a list
  of events over one record. The two encoding paths, epoch-guarded handles and the startup function table all come down to
  the same meaning.
- **File adapter** (`LineQueue`, `Rotation`, `FileWriter`). The queue's methods are its critical sections and channel
  operations; any schedule is a sequence of calls, and the class invariant is what every schedule keeps. The disk is a map
  from names to bytes.
- **Context branching** (`Context`), on arrays with spare capacity; the **indexed field store** (`IndexedStore`, `Bits`)
  against a map; the **OpenTelemetry bridge** (`OtelBridge`); the **channel-buffered wrapper** (`AsyncWrapper`).

Shared vocabulary is in `Bytes`, `Sequences` and `Types`. Strings are byte sequences, except in masking, where they are
rune sequences, and in the OpenTelemetry bridge, where only equality of keys matters.

Clocks, destinations, formatting of floats and dates, the disk's answers, the pool's choice of a state and the tracing
library's parsers are parameters. A rendering of a second (`Stamp`) is assumed to have 20 to 25 bytes that need no escaping,
as RFC 3339 stamps do.

Where the code and its comments differ, the model follows the code:

- `asyncring` `Flush` is documented to cover every accepted record; it stops at a claimed but unpublished slot.
  `RingFlush.FlushExactly` gives the exact condition, `RingTheorems.FlushCanMiss` a schedule.
- The epoch is described as guarding builders; only `Line` compares it when a field is added. `TypedBuilder.AddField` gives
  the exact condition under which a typed builder's field harms nobody, `TypedBuilder.LandingIsReached` and
  `TypedBuilder.LeakIsReached` the two runs: into another open line, and through the pool into the next one.
- `IndexedFieldStore.Get` without a dictionary looks up a hash, not the assigned ID (`IndexedStore.GetAgrees`,
  `IndexedStore.SetThenGet`), and fields whose place in a chunk is 64 or more never become visible
  (`IndexedStore.StoredMeans`).
- A ring slot does not carry an entry's wall clock, so an entry timed only by it formats differently
  (`Payload.CopyFormatsAlikeExactly`).
- Fatal and Panic of a root logger write below the threshold too, and Fatal of a discarding logger does not flush
  (`Dispatch.TerminalAgrees`). A discarding logger that samples does not show its sampler the bound fields
  (`Dispatch.MessageAgrees`).

## Model

| member | source | states |
|---|---|---|
| `RingTheorems.NoLossAtClose` | adapters/outputs/asyncring/writer.go:180-189 | When the writer has signalled done, the output is exactly the promised lines of every claimed record, once each, in claim order; every accepted call is one of them; in block and drop mode, for any number of producers and any schedule |
| `RingTheorems.RefinesFifo` | adapters/outputs/asyncring/ring.go:96-141 | Every atomic step of producers, writer and Close is a step of a bounded first-in first-out queue or leaves it alone |
| `RingTheorems.ExclusiveSlots` | adapters/outputs/asyncring/ring.go:96-117 | A slot is filled by one producer at a time and never while the writer reads it |
| `RingTheorems.ClaimsDistinct` | adapters/outputs/asyncring/ring.go:102-108 | No call claims two positions |
| `RingTheorems.FalseOnlyWhenFull` | adapters/outputs/asyncring/ring.go:109-112 | The load that makes enqueue return false sees a whole capacity of positions claimed and not yet freed |
| `RingTheorems.OutputInClaimOrder` | adapters/outputs/asyncring/writer.go:128-157 | At every moment what was handed out plus what is buffered is a prefix of the claimed records, in claim order |
| `RingTheorems.Conservation` | adapters/outputs/asyncring/adapter.go:78-111 | Accepted plus dropped equals the calls decided, at every moment; with no call under way accepted calls are the claimed records and in-flight is zero |
| `RingTheorems.DoneIsFinal` | adapters/outputs/asyncring/writer.go:79-110 | After done, no step changes the output or accepts another record |
| `RingTheorems.DrainStopsAtUnpublished` | adapters/outputs/asyncring/ring.go:122-141 | The writer finds nothing to take exactly when everything claimed is taken or the very next position is claimed but unpublished |
| `RingTheorems.FlushCovers` | adapters/outputs/asyncring/writer.go:160-165 | Where a drain ends, an accepted record has been taken if and only if no producer then holds a position below it |
| `RingFlush.FlushWrites` | adapters/outputs/asyncring/adapter.go:128-136 | Flush is called when a call has returned success and no producer holds a position below its record: whatever happens until the request reaches the writer and after, the flush is not acknowledged before the record, and every line before it, has been handed to the destination |
| `RingFlush.FlushExactly` | adapters/outputs/asyncring/writer.go:100-124 | Every schedule from the request to its acknowledgement has an accepted record written if and only if, when the request reaches the writer, no producer holds a position below that record |
| `RingFlush.FlushMisses` | adapters/outputs/asyncring/writer.go:160-165 | A producer holding a position at or below a record: some schedule acknowledges the flush with the record unwritten |
| `RingFlush.FlushFinishes` | adapters/outputs/asyncring/writer.go:128-165 | Left to itself the writer reaches the acknowledgement, its buffer empty |
| `RingFlush.StaysReleased` | adapters/outputs/asyncring/ring.go:96-117 | A claimed position nobody holds is never held again |
| `RingTheorems.FlushCanMiss` | adapters/outputs/asyncring/adapter.go:128-136 | A concrete schedule: a call has returned success, a later flush is acknowledged, and nothing was written |
| `RingTheorems.JsonFormatsCopies` | adapters/outputs/asyncring/payload.go:83-93 | The JSON formatter renders a slot copy of an entry with TimestampUnix like the entry itself |
| `RingTheorems.AcceptedAtDone` | adapters/outputs/asyncring/writer.go:167-189 | At done the claimed positions and the calls that returned success correspond one to one |
| `RingProof.StepKeeps` | adapters/outputs/asyncring/writer.go:79-189 | Every atomic step keeps the ring invariant: slot sequences, ownership, counts, the writer's cursor, quiet producers once in-flight was seen zero |
| `RingProof.Reachable` | adapters/outputs/asyncring/ring.go:54-141 | The invariant holds after any schedule from a new ring |
| `RingMath.MaskIsMod` | adapters/outputs/asyncring/ring.go:54-61 | Masking with capacity - 1 is the remainder by the capacity |
| `RingMath.OneBitTest` | adapters/outputs/asyncring/ring.go:64-72 | The one-bit test of roundUpPow2 recognises exactly the powers of two |
| `RingMath.RoundUpIsLeast` | adapters/outputs/asyncring/ring.go:64-72 | roundUpPow2 gives the least power of two not below its argument, and at least two |
| `Payload.EntryPayload.CopyFrom` | adapters/outputs/asyncring/payload.go:54-77 | A slot holds exactly the copy of the entry; only records wider than its inline array allocate |
| `Payload.CopyKeepsFields` | adapters/outputs/asyncring/payload.go:54-93 | Copied into a slot and projected out again, an entry emits the same fields in the same order; its time is kept exactly when it does not come from its wall clock |
| `Payload.CopyFormatsAlike` | adapters/outputs/asyncring/payload.go:54-93 | With TimestampUnix set (or no wall clock), the copy formats to the bytes of the entry |
| `Payload.CopyFormatsAlikeExactly` | adapters/outputs/asyncring/payload.go:54-77 | At nanosecond precision in a fixed zone the copy formats alike if and only if the entry's time does not come from its wall clock |
| `Regex.NeverEmpty` | masking/regex.go:44-71 | When mayMatchEmpty is false no match of the pattern is empty, at any position of any input |
| `Regex.EndsOnSuffix` | masking/regex.go:92-95 | Cutting the input one rune before a position changes no match from there on, assertions included |
| `RegexScan.PrefixFindsSameEnd` | masking/regex.go:85-88 | The lazy anchored prefix pattern ends where the leftmost-first match ends |
| `RegexScan.ContextFindsLater` | masking/regex.go:92-98 | The context pattern on the kept rune and the rest finds a match exactly when a further match exists |
| `RegexScan.SingletonAgrees` | masking/regex.go:77-99 | Count 0, 1 or 2 exactly as the full leftmost-first list has none, one or more matches; with 1 the span is that match |
| `Masking.NewRegexRule` | masking/regex.go:19-40 | A rule exists when its pattern compiles, and takes the shortcut only when the analysis clears it |
| `Masking.CollectRule` | masking/regex.go:128-146 | Shortcut or full scan, a rule contributes exactly its full match list |
| `Masking.Collect` | masking/regex.go:125-146 | The collected matches are every rule's matches in rule order |
| `Masking.StableSortOk` | masking/regex.go:150 | The sort reorders and orders by start |
| `Masking.StableSortStable` | masking/regex.go:150 | Matches that start together keep rule order |
| `Masking.SortKeepsMeaning` | masking/regex.go:150 | Sorting does not change the masked text |
| `Masking.AbsorbRun` | masking/regex.go:154-161 | One turn of the merge reads exactly one run |
| `Masking.MergeInPlace` | masking/regex.go:152-165 | The in-place merge leaves the runs of the original array; no unread match is overwritten |
| `Masking.MergeDisjoint` | masking/regex.go:152-165 | The runs are sorted and disjoint |
| `Masking.MergeSameUnion` | masking/regex.go:152-165 | The runs cover exactly the positions the raw matches cover |
| `Masking.RunsPrintFirst` | masking/regex.go:150-165 | Each run starts and prints as one match of the sorted list does, every earlier match ends by then, every later one starts no earlier: its first match by start, then rule order |
| `Masking.SpliceIsMasked` | masking/regex.go:169-190 | Splicing the merged runs prints, position by position, what the matches mean |
| `Masking.SpliceLength` | masking/regex.go:171-180 | The length reserved is exactly the length written |
| `Masking.WriteRuns` | masking/regex.go:181-190 | The builder loop writes the splice |
| `Masking.OutputLength` | masking/regex.go:171-180 | The two loops compute the reserved length |
| `Masking.MaskStringResult` | masking/regex.go:117-191 | Output is the masked text of the raw matches: a rune is kept exactly when no match covers it, a replacement printed where a match starts and none is open; the boxed constant is returned exactly when one run covers the input; no match returns the input; the reserved length is exact |
| `JsonString.MaskExact` | adapters/formatters/json/formatter.go:280-287 | The word mask is nonzero exactly when one of the eight bytes is below 0x20, a quote or a backslash |
| `JsonString.AppendJSONString` | adapters/formatters/json/formatter.go:297-314 | Word-wise, byte-wise and escaping routes append the per-byte escape of the whole string |
| `JsonString.AppendTail` | adapters/formatters/json/formatter.go:308-313 | The bytes past the last whole word, clean or not, complete the per-byte escape of the whole string |
| `JsonString.AppendJSONEscaped` | adapters/formatters/json/formatter.go:317-353 | From a clean prefix on, appends the rest escaped byte by byte |
| `JsonString.EscapeDecodes` | adapters/formatters/json/formatter.go:317-353 | A string decoder following section 7 of RFC 8259 reads an escaped body back to the original bytes |
| `JsonString.EscapeVisible` | adapters/formatters/json/formatter.go:317-353 | An escaped body holds no control byte, bare quote or newline |
| `Json.KeyFragment` | adapters/formatters/json/formatter.go:56-61 | The cached fragment of a key is the prefix the plain path renders |
| `Json.AppendKeyPrefix` | adapters/formatters/json/formatter.go:165-180 | Cached fragment or fused scan, the key prefix is the same text |
| `Json.AppendValue` | adapters/formatters/json/formatter.go:185-213 | Every kind of value renders to its value text |
| `Json.AppendStringField` | adapters/formatters/json/direct.go:61-66 | A direct string field is the member of a captured string, and of a captured error with that text |
| `Json.AppendIntField` | adapters/formatters/json/direct.go:69-72 | A direct int field is the member of a captured int and of a captured int64 |
| `Json.AppendFloat64Field` | adapters/formatters/json/direct.go:76-79 | A direct float field is the member of the captured one |
| `Json.AppendBoolField` | adapters/formatters/json/direct.go:82-88 | A direct bool field is the member of the captured one |
| `Json.AppendField` | adapters/formatters/json/direct.go:47-50 | The generic direct field is the member of the captured one |
| `Json.AppendCaller` | adapters/formatters/json/formatter.go:136-148 | The caller member is the base name after the last separator, then the line |
| `Json.FieldsTextConcat` | adapters/formatters/json/formatter.go:118-128 | Members of two field lists render one after the other |
| `Json.Formatter.AppendHeader` | adapters/formatters/json/direct.go:97-99 | The header of any precision, from any cache state, is the uncached header and the escaped message |
| `Json.Formatter.Format` | adapters/formatters/json/formatter.go:102-131 | Format appends the line text of the entry: header, caller, counted static fields, dynamic fields, closer |
| `JsonParse.LineReads` | adapters/formatters/json/formatter.go:102-131 | Parsing any entry's line gives back exactly its time, level, message, caller and field members |
| `JsonParse.FieldsRead` | adapters/formatters/json/formatter.go:185-213 | Rendered members of string, int, bool, float and error fields parse back to the same keys and values |
| `JsonParse.OneNewline` | adapters/formatters/json/direct.go:39-41 | A line holds one newline, its last byte |
| `TimeHeader.SplitUnixNanos` | adapters/formatters/json/time_header.go:87-95 | sec * 1e9 + frac is the timestamp and 0 <= frac < 1e9, before the epoch too |
| `TimeHeader.FracDigitsParse` | adapters/formatters/json/time_header.go:167-175 | The fraction digits parse back to the fraction |
| `TimeHeader.TimeTextCarriesFraction` | adapters/formatters/json/time_header.go:149-165 | The time text carries the truncated fraction at its fixed place, in the precision's width |
| `HeaderCache.AppendFracDigits` | adapters/formatters/json/time_header.go:168-175 | The digit loop fills the scratch array with the zero-padded fraction |
| `HeaderCache.Caches.AppendHeaderSecond` | adapters/formatters/json/time_header.go:99-106 | Hit or miss, the fused header is the uncached one |
| `HeaderCache.Caches.BuildFusedHeader` | adapters/formatters/json/time_header.go:108-118 | A rebuild publishes and appends the header of its second and level; other levels are untouched |
| `HeaderCache.Caches.BuildTsParts` | adapters/formatters/json/time_header.go:138-145 | A rebuild publishes the parts of its second |
| `HeaderCache.Caches.AppendHeaderSub` | adapters/formatters/json/time_header.go:149-165 | Hit or miss, the spliced sub-second header is the uncached one |
| `HeaderCache.EveryHeaderIsUncached` | adapters/formatters/json/time_header.go:99-165 | Under every interleaving of loads, rebuilds and stores across threads, each header returned is the uncached rendering |
| `Logging.NewLogger` | core/logger.go:146-187 | With masking or sampling configured the direct path is off; discarding loggers record no call site |
| `Lines.EncodeBothWays` | core/fluent_typed.go:119-181 | One line encoded both ways, for any list of arguments, past the 64-slot buffer too, with and without a recorded call site: the bytes assembled from directly encoded fields are the bytes Format gives the captured entry |
| `Logging.MaskedFirst` | core/fluent_typed.go:442-467 | With masking on nothing is written raw and every delivered record is the mask of the line's record |
| `Lines.PState.CaptureField` | core/fluent_typed.go:103-112 | A captured field follows the earlier ones, past the 64-slot buffer too |
| `Lines.PState.PrefillBound` | core/fluent_typed.go:92-98 | The bound context becomes the captured prefix |
| `Lines.PState.Add` | core/fluent_typed.go:119-181 | One field is encoded on the direct path or captured on the other, the other storage untouched |
| `Lines.PState.Fill` | core/fluent_typed.go:432-437 | The completed entry's record is the line's record |
| `Lines.Core.Get` | core/pool.go:80-92 | A state is taken from the pool or made, its counted fields gone and its slice whole again; what it kept past the buffer stays, which is nothing while the pool is clean; every open line is undisturbed |
| `Lines.Core.Put` | core/pool.go:102-113 | A state not in the pool returns to it once, under a new epoch |
| `Lines.Core.AcquireState` | core/fluent_typed.go:66-75 | From a clean pool the state carries an empty line on the path the encoder selects, bound fields first |
| `Lines.Core.CaptureState` | core/fluent_typed.go:81-85 | The state carries an empty captured line |
| `Lines.Core.AssembleLine` | core/fluent_typed.go:415-424 | Header, call site, bound bytes, direct fields and closer make up the text of the line's record |
| `Lines.Core.EmitCaptured` | core/fluent_typed.go:442-475 | Sample, resolve the site, mask, deliver, count, in that order; the pooled entry keeps no site |
| `Lines.Core.DispatchLine` | core/fluent_typed.go:397-492 | A current epoch writes what the line means and recycles the state once; a stale one does nothing |
| `Lines.Core.OpenAt` | core/line.go:44-52 | Below the threshold the line is disabled; otherwise a fresh line of this logger and level is open |
| `Lines.Core.AddTo` | core/line.go:71-178 | An unfinished line gains exactly this field; a disabled or stale handle changes nothing |
| `Lines.Core.Msg` | core/line.go:183-197 | An unfinished line is written once and finished; a disabled or stale handle does nothing |
| `Lines.OneOwner` | core/pool.go:50-56 | A pooled state is in the pool or owned by one unfinished line, never both; a finished line's handle never matches again |
| `TypedBuilder.AddField` | core/fluent_typed.go:184-249 | Through a typed builder, which checks no epoch, the pool and every other line stay as they should be if and only if the builder is current, or no unfinished line owns its state and, if the state is pooled, it was left on the direct path or its trimmed slice has room; otherwise the field is the last of the line that owns the state, or stays in the pooled state past its buffer |
| `TypedBuilder.Set` | core/fluent_typed.go:184-190 | The first field takes a state for the line; later ones add to whatever the state is by then |
| `TypedBuilder.Acquire` | core/fluent_typed.go:54-58 | A new line of the logger on a pooled or new state, at its current epoch |
| `TypedBuilder.Finish` | core/fluent_typed.go:387-403 | A terminal writes the builder's line once; through a stale builder it does nothing |
| `TypedBuilder.StaleAddLands` | core/fluent_typed.go:100-125 | A field added through a stale builder is written in the unfinished line that owns the state, of any logger |
| `TypedBuilder.StaleAddLeaks` | core/pool.go:80-92 | A field added through a stale builder to a pooled state without room is written in the next line to take the state, of any logger |
| `TypedBuilder.LandingIsReached` | core/fluent_typed.go:437-477 | From an empty pool: one typed line, a second line opened on its state and given no field, one stale add: the second line is written with the stale field |
| `TypedBuilder.LeakIsReached` | core/fluent_typed.go:437-477 | From an empty pool: one typed line of one field, two stale adds: the next line is written with the second of them |
| `LineRuns.LinesDoNotMix` | core/line.go:26-51 | In any run a line's logger, level and fields are exactly what its own calls gave it; no other handle plays a part |
| `LineRuns.Execute` | core/line.go:44-197 | Running any list of calls through the pool writes the same events in the same order as lines that share nothing |
| `Dispatch.HotState.constructor` | core/logger.go:206-473 | Startup fills every slot with a function that suits its level and configuration |
| `Dispatch.WriteEntry` | core/logger.go:584-600 | Masks, writes to every adapter, counts |
| `Dispatch.WriteOne` | core/logger_specialized.go:35-47 | The single-adapter function emits what the dispatch point emits |
| `Dispatch.WriteOneMasked` | core/logger_specialized.go:65-78 | The same, masked first |
| `Dispatch.WriteMulti` | core/logger_specialized.go:49-63 | The adapter loop emits what the dispatch point emits |
| `Dispatch.WriteMultiMasked` | core/logger_specialized.go:80-95 | The same, masked first |
| `Dispatch.LogCaller` | core/caller.go:83-86 | The call-site route is the dispatch point on a pooled state |
| `Dispatch.LogBoundCapture` | core/logger.go:698-701 | The bound route is the dispatch point on a captured state |
| `Dispatch.LogSampled` | core/logger.go:715-726 | The sampled route asks the sampler once, with the unmasked record without bound fields |
| `Dispatch.SampledAgrees` | core/logger.go:715-726 | It does what the dispatch point does if and only if the logger has no bound fields |
| `Dispatch.LogDirect` | core/logger.go:665-684 | The direct message route writes what the dispatch point writes, whatever encoder the adapter has now |
| `Dispatch.Log` | core/logger.go:478-508 | Trace to Error: the chosen function does what level filtering and the dispatch point do, or the sampled route of a discarding logger |
| `Dispatch.MessageAgrees` | core/logger.go:478-508 | For every logger that is the dispatch point, if and only if the logger does not at once discard, sample and have bound fields |
| `Dispatch.LogTerminal` | core/logger.go:510-520 | Fatal and Panic: pooled route for bound loggers, else write at every threshold, flush and exit or panic; the pool stays as it should be |
| `Dispatch.TerminalAgrees` | core/logger.go:612-646 | Fatal and Panic of any logger agree with the dispatch point if and only if the level reaches the threshold or the logger is bound and does not discard, and it is not Fatal on a discarding logger without a sampler |
| `LineQueue.Queue.TryPush` | adapters/outputs/file/queue.go:52-80 | Refused when closed, pushed when there is room, refused at once without a timeout, else parked; never over capacity |
| `LineQueue.Queue.Resume` | adapters/outputs/file/queue.go:83-104 | A woken or expired producer is refused, pushed or parks again by the state it finds |
| `LineQueue.Queue.AppendLine` | adapters/outputs/file/queue.go:60-61 | The line joins the buffer in lock order; the three buffers keep distinct storage |
| `LineQueue.Queue.SignalReady` | adapters/outputs/file/queue.go:64-67 | A push leaves a token or finds one |
| `LineQueue.Queue.Take` | adapters/outputs/file/queue.go:109-120 | The consumer gets everything queued and its line count, so everything pushed so far has then been taken; the spare becomes the buffer |
| `LineQueue.Queue.Done` | adapters/outputs/file/queue.go:125-134 | The chunk's room is freed, its array kept for reuse, every waiter woken |
| `LineQueue.Queue.WakeWaiters` | adapters/outputs/file/queue.go:153-158 | The open room is closed once, and only when someone waits |
| `LineQueue.Queue.Close` | adapters/outputs/file/queue.go:138-144 | No further line is accepted and every waiter is woken |
| `LineQueue.ParkedImpliesProgress` | adapters/outputs/file/queue.go:71-105 | A producer parked on the open room always has a chunk being written or work signalled |
| `LineQueue.FinalDrainEmpties` | adapters/outputs/file/file.go:345-350 | After Close and the final drain nothing is queued, and what was written is every accepted line once, in lock order |
| `Rotation.FileStore.OpenFile` | adapters/outputs/file/file.go:551-570 | Opening for append keeps the live content and measures it |
| `Rotation.FileStore.BackupName` | adapters/outputs/file/rotation.go:83-90 | The search ends with a name no file has, with or without .gz |
| `Rotation.FileStore.SwapFile` | adapters/outputs/file/rotation.go:58-79 | A rotation moves the live file to a fresh backup; a failed rename keeps its content at the log path |
| `Rotation.FileStore.WriteChunk` | adapters/outputs/file/file.go:368-399 | Across rotations, failed renames, failed reopens and partial writes, backups in order then the live file hold the initial content and every byte written since; a rotated file stays within its limit or holds one chunk |
| `Rotation.CandidatesDiffer` | adapters/outputs/file/rotation.go:86-88 | Two counters never give the same name |
| `FileWriter.WriteStep` | adapters/outputs/file/file.go:361 | A chunk written in full brings the disk up to everything taken |
| `FileWriter.DoneStep` | adapters/outputs/file/file.go:362 | Giving the chunk back leaves the disk at everything given back |
| `FileWriter.Drain` | adapters/outputs/file/file.go:356-364 | A whole drain keeps disk and queue in step unless the chunk was lost; pushes between its steps do not matter |
| `FileWriter.ClosedFilesHoldEverything` | adapters/outputs/file/file.go:330-364 | After the final drain the files hold the initial content followed by every accepted line |
| `Context.Append` | core/context.go:77-85 | append writes in place only within capacity, else into a new array |
| `Context.With` | core/context.go:55-62 | A builder starts from copies of the bound fields and bytes |
| `Context.Add` | core/context.go:77-85 | Binding a field writes to no existing array; the bytes stay the rendering of the fields; past 32 nothing changes |
| `Context.DeriveLogger` | core/context.go:168-196 | The child is its parent with the context bound |
| `Context.DeriveTree` | core/context.go:64-85 | For any tree of derivations every context ends with exactly its own branch's fields and their rendering |
| `IndexedStore.StoredMeans` | types/indexed_field_store.go:282-287 | Storing at the place of an ID updates the map at its key and nowhere else, exactly when the place is below 64 in its chunk |
| `IndexedStore.AssignedMeans` | types/indexed_field_store.go:481-499 | Giving a key the next ID keeps IDs dense and injective and the map as it was |
| `IndexedStore.ListingIsMap` | types/indexed_field_store.go:411-431 | The listing is the map: each live key once, its last value, in ID order, as many pairs as keys |
| `IndexedStore.RewrittenMeans` | types/indexed_field_store.go:436-447 | Rewriting every live slot rewrites every value of the map |
| `IndexedStore.GetAgrees` | types/indexed_field_store.go:315-336 | Get is the map's lookup if and only if the slot of the key's hash answers for it: a live key's hash is its ID or that slot holds the same value, and for any other key that slot is empty |
| `IndexedStore.GetMissesPastChunks` | types/indexed_field_store.go:501-507 | A key whose hash lies past the chunks in use is never found |
| `IndexedStore.SetThenGet` | types/indexed_field_store.go:224-336 | From a new store: after Set of "a" the map has it and Get does not find it |
| `IndexedStore.IndexedFieldStore.GetOrCreateFieldID` | types/indexed_field_store.go:481-499 | The key's ID, or the next dense one |
| `IndexedStore.IndexedFieldStore.SetFastPath` | types/indexed_field_store.go:237-269 | Declines without the chunk, else stores and sets the presence bit |
| `IndexedStore.IndexedFieldStore.SetSlowPath` | types/indexed_field_store.go:272-288 | Grows the chunks it needs, and terminates, then stores |
| `IndexedStore.IndexedFieldStore.Set` | types/indexed_field_store.go:224-234 | Either path is the map update when the chunk size is at most 64 |
| `IndexedStore.IndexedFieldStore.Iterate` | types/indexed_field_store.go:411-431 | Visits the map in ID order |
| `IndexedStore.IndexedFieldStore.GetAll` | types/indexed_field_store.go:339-408 | Both listings are the map in ID order |
| `IndexedStore.IndexedFieldStore.TransformValues` | types/indexed_field_store.go:436-447 | Every value of the map is rewritten, nothing else |
| `IndexedStore.IndexedFieldStore.Reset` | types/indexed_field_store.go:450-466 | The map is empty, IDs stay assigned |
| `IndexedStore.IndexedFieldStore.Size` | types/indexed_field_store.go:469-478 | The number of set bits is the number of keys |
| `IndexedStore.IndexedFieldStore.Get` | types/indexed_field_store.go:315-336 | Finds what is in the place of the key's hash, and agrees with the map exactly when that slot answers for the key |
| `Bits.WalkStep` | types/indexed_field_store.go:363-365 | Clearing the lowest set bit takes the set bits one by one in ascending order |
| `Bits.WalkBits` | types/indexed_field_store.go:422-430 | The walk visits exactly the set bits, ascending, and ends |
| `Bits.SetBitBits` | types/indexed_field_store.go:287 | OR-ing a shifted one sets that bit and no other, and nothing past 63 |
| `Bits.OrPresent` | types/indexed_field_store.go:257-260 | OR-ing in a bit already set changes nothing |
| `Bits.CountIsLength` | types/indexed_field_store.go:474-476 | The population count is the number of set bits |
| `OtelBridge.ResolveSpanContext` | otelbridge/adapter.go:398-456 | The last occurrence of each key decides; correlated exactly when the last trace id parses; consumed bits follow |
| `OtelBridge.Attributes` | otelbridge/adapter.go:479-542 | No consumed or empty key; each unconsumed correlation key that occurs appears once with its last value; other fields all kept in order; the count stays within the staged capacity |
| `OtelBridge.Build` | otelbridge/adapter.go:296-339 | A record is correlated exactly when the last trace id parses; of trace id, span id and flags each consumed key leaves no attribute and each other one that occurs leaves one, its last; attributes never outgrow the staged array; a disabled severity builds none |
| `OtelBridge.DerivedAreFresh` | otelbridge/adapter.go:521-540 | Derived metadata never has a logged key, a correlation key, or one key twice |
| `OtelBridge.LastOfFinds` | otelbridge/adapter.go:394-397 | The last value of a key is that of its last field |
| `AsyncWrapper.CopySeenAlike` | adapters/middleware/async.go:154-174 | An adapter sees in the pooled copy what it would have seen in the entry |
| `AsyncWrapper.AsyncAdapter.AcquireCopy` | adapters/middleware/async.go:154-174 | The copy is that of the entry this writer was given, and belongs to this writer alone |
| `AsyncWrapper.AsyncAdapter.Send` | adapters/middleware/async.go:218-225 | With room the writer's entry is accepted and its copy joins the buffer, else the copy returns to the pool |
| `AsyncWrapper.AsyncAdapter.Close` | adapters/middleware/async.go:282-293 | The flag is set while no writer holds the lock, so nothing is sent after it |
| `AsyncWrapper.AsyncAdapter.DrainInto` | adapters/middleware/async.go:377-386 | Everything buffered joins the batch in order |
| `AsyncWrapper.AsyncAdapter.WriteOne` | adapters/middleware/async.go:395-405 | Each entry is offered unless an earlier one failed; its copy is released once |
| `AsyncWrapper.AsyncAdapter.FlushBatch` | adapters/middleware/async.go:389-413 | The whole batch is finished with; without failures nothing is lost |
| `AsyncWrapper.AsyncAdapter.Shutdown` | adapters/middleware/async.go:362-369 | Drains and flushes before stopping |
| `AsyncWrapper.StoppedMeansAllOffered` | adapters/middleware/async.go:282-300 | Once stopped, and the base never failed, every entry whose Write returned nil was offered once in send order, seen as its caller passed it, and every copy is back in the pool |
| `LineQueue.Queue.Park` | adapters/outputs/file/queue.go:84-92 | A producer parks only on a full open queue |
| `LineQueue.Queue.Settle` | adapters/outputs/file/queue.go:96-103 | After a wait: closed, room, expired, else wait again, in that order |
| `LineQueue.Queue.ReceiveToken` | adapters/outputs/file/file.go:338-339 | Taking the token leaves the consumer about to take, so that queued lines always have a token, a producer about to send one, or a consumer about to take them |
| `LineQueue.Queue.ReceiveFlush` | adapters/outputs/file/file.go:341-343 | A flush request makes the consumer take, token or not |
| `LineQueue.Queue.ReceiveStop` | adapters/outputs/file/file.go:345-349 | The stop signal starts the final drain |
| `LineQueue.Queue.SignalStop` | adapters/outputs/file/file.go:435-438 | The stop signal is sent only after the queue is closed |
| `Rotation.FileStore.RotateIfDue` | adapters/outputs/file/file.go:376-383 | A due rotation leaves room for the chunk or an empty file; a failed one waits for the retry delay |
| `Rotation.FileStore.AppendChunk` | adapters/outputs/file/file.go:385-398 | The live file grows by the bytes written; the kept size by those of a successful write |
| `IndexedStore.IndexedFieldStore.GrowChunk` | types/indexed_field_store.go:202-211 | A new chunk leaves the map as it was |
| `IndexedStore.IndexedFieldStore.GetAllSlowPath` | types/indexed_field_store.go:384-408 | Testing every place of every chunk lists the map in ID order |
| `Json.AppendStructField` | adapters/formatters/json/formatter.go:154-157 | A captured field appends its member |
| `Json.AppendFields` | adapters/formatters/json/formatter.go:123-128 | A field loop appends the members in order |
| `Dispatch.DiscardAgrees` | core/logger.go:529-578 | On a discarding logger without a sampler the discard functions do all the dispatch point does, if and only if the level is not Fatal, where they do not flush |
| `Dispatch.RealTerminal` | core/logger.go:615-646 | Fatal and Panic of a root logger emit the captured line, then flush and exit, or panic |
| `AsyncWrapper.AsyncAdapter.BeginWrite` | adapters/middleware/async.go:205-213 | A writer holds the read lock exactly when it has seen the adapter open |
| `AsyncWrapper.AsyncAdapter.Receive` | adapters/middleware/async.go:335-342 | One entry moves from buffer to batch, order kept |
| `Payload.ProjectIgnoresScratch` | adapters/outputs/asyncring/payload.go:79-93 | What the scratch entry held before never shows |
| `OtelBridge.Logged` | otelbridge/adapter.go:485-519 | The field pass keeps the slots and claimed bits right |
| `OtelBridge.AddCorrelation` | otelbridge/adapter.go:489-516 | A correlation key's first field takes a slot, later ones replace it there |
| `RegexScan.FindFrom` | masking/regex.go:78 | The match found is the leftmost start and its first-priority end; none means no start matches |
| `Lines.Core.Take` | core/pool.go:81 | Any pooled state or a new one leaves the pool |
| `Lines.Core.Deliver` | core/fluent_typed.go:458-467 | The record goes to every adapter in order, or to the discard adapter |

## Left out

- RingTheorems.NoLossAtClose: a write error of the destination counts as written, as the code drops the batch; a record without TimestampUnix is promised the text of its copy.
- RingFlush.FlushWrites: a Flush called while closing returns at once, and one whose writer stops first returns at done; both are left to RingTheorems.NoLossAtClose.
- TypedBuilder.Finish: a terminal of a builder without a field calls the level's specialised function, which is Dispatch.Log and Dispatch.LogTerminal.
- Lines.Core.EmitCaptured: the masker is a function on records, so its rewriting of the pooled field buffer in place, which the next line clears, is not modelled.
- Lines.Core.AssembleLine: the call-site member is rendered on each line; the process-wide cache that renders it once per site is not modelled.
- Dispatch.Log: the masker is taken to keep an entry's level, as the repository's does.
- Dispatch.HotState.constructor: the function table is the four-way mask and adapter matrix with the level as a parameter, not sixteen copies.
- LineQueue.Queue.TryPush: the timer is a choice the schedule makes; that a producer waits no longer than its timeout is not stated.
- Rotation.FileStore.WriteChunk: retention and compression never delete anything here; the circuit breaker's answer is a parameter.
- Masking.MaskStringResult: positions count runes where the code counts bytes; the panic on an output longer than an int is not modelled, and rewriting a pattern through its printed form is taken to keep its meaning.
- IndexedStore.IndexedFieldStore.Set: one caller at a time; races between lock-free writers are not modelled, and IDs come from the fallback registry, not from a dictionary.
- JsonParse.LineReads: the parser reads the escapes the encoder writes and rejects surrogate pairs; floats are opaque digits, and a declared key must carry its own fragment.
- OtelBridge.Attributes: the conversion of values to the tracing library's types is opaque.
- AsyncWrapper.AsyncAdapter.FlushBatch: errors are kept only as the fact that one occurred; the flush of the base adapter is not modelled.
- `FieldBuilder.WithField` on a builder without a state takes one without the bound context, so that entry point is outside the byte-identity results.
- Wrap-around of ring positions, epochs and counters; liveness; allocation counts and buffer retention limits.
- Formatter `dst` capacity and aliasing: byte appends are on values, except in `Context`.
- Ring `Len`, `Occupancy`, health checks, metrics other than the per-level count, and configuration loading.
- Network, syslog and alert outputs, compression, file locks, the worker and extraction pools, and sampling algorithms.
- `BasicIndexedFieldStore` and `SetByID`: the same ideas on one chunk, or dependent on an external dictionary.
