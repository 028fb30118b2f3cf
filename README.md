# promfire replication engine, modelled in Dafny

promfire is a Prometheus load generator. It discovers the metric names of a live
Prometheus, drops those that match an exclusion pattern, and queries each remaining metric
over a time range. It then writes every returned series back through the remote-write
protocol several times, once per *label combination*, so that the series arrives as many
distinct copies. The writes are rate limited: samples go out in chunks no larger than the
limiter's burst, and every chunk waits for its tokens first.

This project models the core of that program and proves properties of the model:

- `LabelCombinator` (label_combinations.dfy) covers `generateLabelCombinations`. Without
  replication labels there is one `benchmark_replica = replica-<i>` set per copy. With
  replication labels, an empty `benchmark_instance` list is auto-filled, and the label sets
  are the mixed-radix enumeration of the value lists, cut off at the replication factor.
- `Benchmarker` (benchmarker.dfy) is the engine, a class with an event log:
  - the exclusion-pattern loop of `NewBenchmarker` and `filterMetrics`;
  - the label merge, replication cap and dry run of `replicateSeries`;
  - the chunking of `sendSamples`;
  - the loops of `processMetric` and `processMetrics`, which skip failures and check
    cancellation;
  - `Run`.
- `Writer` (writer.dfy) covers the remote-write client:
  - the `TimestampCoordinator`;
  - `convertToTimeSeries`, `WriteSamples` and `WriteBatch`;
  - `sendInBatches` and the status check of `sendBatch`.
- `Config` (config.dfy) covers `setDefaults` and `Validate`.
- `Logger` (logger.dfy) covers:
  - levels, `String` and `ParseLogLevel`;
  - the level gate of `log`;
  - the global logger, with `Init`, `SetLevel`, `GetLevel` and the nil guard in the level
    functions.
- Support modules:
  - `Environment` models the outside world: the run's cancellation, the clock and the rate
    limiter.
  - `Seqs` holds filtering and windowing of sequences.
  - `Arith` holds division lemmas.
  - `Format` is decimal printing, as in `%d`.
  - `Wrappers` holds `Option`, `Result` and `Outcome`.

The outside world is modelled by methods that may return anything: a range query, the
metric discovery, the HTTP answer to a POST, a clock reading, and whether the run has been
cancelled. So every contract below holds for every behaviour of the network, the clock and
the limiter.

Log levels are a `newtype` over `int`. TRACE to FATAL are 0 to 5, so their total order is
the integer order, as in Go.

## Model

| member | source | states |
|---|---|---|
| LabelCombinator.DefaultCombinations | internal/benchmarker/benchmarker.go:305-313 | without replication labels there are exactly replication-factor label sets |
| LabelCombinator.ReplicaSets | internal/benchmarker/benchmarker.go:307-312 | without replication labels, set i has the single key `benchmark_replica`, with value `replica-<i>` in decimal |
| LabelCombinator.ReplicaSetsDistinct | internal/benchmarker/benchmarker.go:307-312 | the default label sets are pairwise distinct |
| LabelCombinator.ReplicaCombinations | internal/benchmarker/benchmarker.go:307-313 | the array-filling loop produces exactly the default label sets |
| LabelCombinator.AutoFill | internal/benchmarker/benchmarker.go:320-336 | the working copy has the same length and names as the configuration; only an empty `benchmark_instance` list changes, and that list becomes the auto values |
| LabelCombinator.AutoValues | internal/benchmarker/benchmarker.go:326-329 | an auto-filled instance list has exactly replication-factor values |
| LabelCombinator.AutoValuesDistinct | internal/benchmarker/benchmarker.go:326-329 | the auto values `bench-1` ... `bench-<rf>` are pairwise distinct |
| LabelCombinator.AutoFillCopy | internal/benchmarker/benchmarker.go:320-336 | the in-place loop over the copied array yields the auto-filled specification, and the configuration itself is untouched |
| LabelCombinator.InstanceValues | internal/benchmarker/benchmarker.go:326-329 | the loop yields `bench-<j+1>` at position j |
| LabelCombinator.Width | internal/benchmarker/benchmarker.go:340-344 | an entry without values contributes factor 1 to the product |
| LabelCombinator.Radix | internal/benchmarker/benchmarker.go:339-344 | the product of the non-empty list lengths is at least 1 |
| LabelCombinator.TotalCombinations | internal/benchmarker/benchmarker.go:339-344 | the multiplying loop computes that product |
| LabelCombinator.Digit | internal/benchmarker/benchmarker.go:356-363 | the value index of entry k for combination i is `(i / prefix_k) % len_k`, and always a valid index |
| LabelCombinator.Combination | internal/benchmarker/benchmarker.go:352-365 | the `% len` / `/ len` loop builds the label set of combination i, so the first entry varies fastest |
| LabelCombinator.Combinations | internal/benchmarker/benchmarker.go:304-369 | at most replication-factor label sets |
| LabelCombinator.GenerateLabelCombinations | internal/benchmarker/benchmarker.go:304-369 | the Go loops, step by step, return exactly `Combinations` |
| LabelCombinator.CombinationCount | internal/benchmarker/benchmarker.go:305-352 | the count is the replication factor without replication labels, and otherwise min(replication factor, product of non-empty lengths) |
| LabelCombinator.AllEmptySpec | internal/benchmarker/benchmarker.go:339-365 | a specification whose lists are all empty, with no instance list to fill, gives exactly one empty label set |
| LabelCombinator.LabelSetKeys | internal/benchmarker/benchmarker.go:357-363 | the keys of a combination are exactly the names of the entries that have values |
| LabelCombinator.LabelSetValue | internal/benchmarker/benchmarker.go:357-363 | a key's value is that entry's value at its digit, unless a later entry of the same name overrides it |
| LabelCombinator.CombinationsDistinct | internal/benchmarker/benchmarker.go:304-369 | with unique names and repetition-free lists, the returned label sets are pairwise distinct |
| Benchmarker.CompileExcludePatterns | internal/benchmarker/benchmarker.go:47-59 | the compiling patterns are kept in order; the failing ones are reported in order and do not stop the loop |
| Benchmarker.CompiledMembers | internal/benchmarker/benchmarker.go:49-58 | a pattern is kept if and only if it is configured and compiles; it is reported if and only if it is configured and fails to compile |
| Benchmarker.Benchmarker.constructor | internal/benchmarker/benchmarker.go:42-80 | NewBenchmarker keeps the compiled patterns, logs one warning per invalid pattern, and creates a fresh writer with the remote-write URL and batch size exactly when this is not a dry run |
| Benchmarker.FilterMetrics | internal/benchmarker/benchmarker.go:144-159 | the result is the discovered names that no pattern matches, in their original order |
| Benchmarker.FilteredMembers | internal/benchmarker/benchmarker.go:144-159 | a name survives if and only if it was discovered and no pattern matches it |
| Benchmarker.NoPatternsKeepAll | internal/benchmarker/benchmarker.go:144-159 | without patterns, filtering returns its input |
| Benchmarker.CopyInto | internal/benchmarker/benchmarker.go:278-283 | a `for k, v := range` copy loop yields the target overwritten by the source |
| Benchmarker.MergeLabels | internal/benchmarker/benchmarker.go:277-283 | the merged labels hold every key of both maps, and combination values win on shared keys |
| Benchmarker.Benchmarker.SendSamples | internal/benchmarker/benchmarker.go:372-410 | no values means no wait and no write. Otherwise the limiter is asked once per chunk, in order and at the chunk's size, and the writer gets exactly the chunks that passed, under the given labels, with each write's outcome recorded. Success means every chunk was waited for and written, and every write passed. The first failure stops the loop. A rate-limit failure comes from a cancellation. A write failure names its 1-based chunk and carries the writer's own error, which is the outcome of the last write; every earlier write passed |
| Benchmarker.Benchmarker.SendChunk | internal/benchmarker/benchmarker.go:387-406 | one chunk waits for its size in tokens. It is written, exactly once, if and only if there is a writer and the wait succeeded. The result is no error if and only if the wait succeeded and the write (if any) passed. A wait failure is a cancellation and writes nothing. A failed write is reported as a write failure with the chunk number and exactly the writer's error |
| Benchmarker.ChunkRunFailed | internal/benchmarker/benchmarker.go:391-405 | after a failure the writer has been handed a prefix of the chunks; a write failure names the number of chunks handed, which is at least 1 |
| Benchmarker.ProgressStep | internal/benchmarker/benchmarker.go:381-388 | the chunk `[i, min(i+burst, n))` is the next window, has 1 to burst values, and has number `i / burst + 1` |
| Seqs.WindowsFlatten | internal/benchmarker/benchmarker.go:381-388 | the chunks joined together give back the input |
| Seqs.WindowsSized | internal/benchmarker/benchmarker.go:381-388 | every chunk has between 1 and burst values |
| Seqs.WindowsCount | internal/benchmarker/benchmarker.go:398 | there are `(n + burst - 1) / burst` chunks, that is, ceil(n / burst) |
| Seqs.WindowAt | internal/benchmarker/benchmarker.go:381-387 | chunk k is exactly `values[k*burst : min((k+1)*burst, n)]`, and it starts inside the input |
| Benchmarker.Benchmarker.ReplicateOnce | internal/benchmarker/benchmarker.go:276-297 | one copy has the merged labels; a dry run logs it and waits for and writes nothing; otherwise it is sent in chunks and logs nothing. Every chunk handed to the writer has exactly one recorded outcome, and the outcomes agree with the result. A rate-limit failure is a cancellation that stopped the copy before its last chunk had been written. A run already cancelled sends nothing and fails at the first wait |
| Benchmarker.Benchmarker.ReplicateSeries | internal/benchmarker/benchmarker.go:263-301 | one copy per label combination, capped at the replication factor. A dry run always succeeds: it logs every copy with its merged labels and sample count, and waits for and writes nothing. Otherwise it logs nothing. There is exactly one recorded outcome per write. With success, every copy's chunks were written in combination order and every write passed. With failure, the completed copies and a prefix of the failing copy's chunks were written; a write failure is the failing outcome of the last write, with the same error, and a rate-limit failure is a cancellation that stopped the failing copy before its last chunk had been written. When the run is already cancelled, a series with values fails at its first wait, with no copy completed and nothing written |
| Benchmarker.ReplicaStep | internal/benchmarker/benchmarker.go:271-298 | one more combination extends the dry-run log or the writes by exactly that copy |
| Benchmarker.Benchmarker.ReplicateLogged | internal/benchmarker/benchmarker.go:212-218 | the turn for one series ends with a possible attempt of replicateSeries (a rate-limited one stopped before the failing copy's last chunk). A dry run logs every copy and cannot fail. Otherwise exactly one failure line, carrying the error, is logged if and only if replicateSeries failed, and nothing otherwise. The writes are every copy on success, or the completed copies and the written chunks of the failing copy, and the outcomes are those of the attempt |
| Benchmarker.RateLimitedHadChunks | internal/benchmarker/benchmarker.go:373-393 | a rate-limited series had a chunk left to wait for, so a series without values is never reported as rate limited |
| Benchmarker.SeriesLoopStep | internal/benchmarker/benchmarker.go:211-219 | the per-series outcomes accumulate into the outcome of the series loop |
| Benchmarker.Benchmarker.ReplicateAll | internal/benchmarker/benchmarker.go:211-219 | one attempt per series, in order, each a possible result of replicateSeries. A dry run logs every copy of every series and writes nothing. Otherwise the log holds exactly the failure lines of the failing series, in order, and the writes and their outcomes are those of every series, series by series, one outcome per write. Once the run is cancelled, every later series with values fails at its first wait |
| Benchmarker.CancelHaltsStep | internal/benchmarker/benchmarker.go:211-219 | once the run is cancelled, before the series loop or during a series that then failed at a wait, every later series with values fails at its first wait and writes nothing |
| Benchmarker.LoopCounts | internal/benchmarker/benchmarker.go:211-219 | over the series loop, the recorded write outcomes are exactly as many as the writes |
| Benchmarker.NoFailures | internal/benchmarker/benchmarker.go:211-219 | no failure line is logged if and only if every series was replicated without error |
| Benchmarker.NoFailuresAllWritten | internal/benchmarker/benchmarker.go:211-219 | when no series failed, the writes are exactly every copy of every series, series by series |
| Benchmarker.Benchmarker.ProcessMetric | internal/benchmarker/benchmarker.go:196-222 | a failed query is returned, logs nothing, waits for nothing and writes nothing. An empty result logs only "no data" and writes nothing. Otherwise the result goes through the series loop, as in ReplicateAll, and a cancellation halts every later series with values. A dry run never waits |
| Benchmarker.Benchmarker.ProcessLogged | internal/benchmarker/benchmarker.go:172-189 | one turn of the metric loop. The look at the run's cancellation is recorded; when it has fired the turn stops and logs and writes nothing. Otherwise it logs "Processing metric", then the query failure, or "No data found", or the series loop's lines, and its writes and outcomes are exactly those of the turn; a failure does not stop the loop |
| Benchmarker.TurnLoopStep | internal/benchmarker/benchmarker.go:172-190 | one more turn of a metric extends the loop state by exactly that turn's metric, log lines, writes and outcomes |
| Benchmarker.TurnCounts | internal/benchmarker/benchmarker.go:172-190 | over the whole metric loop, the recorded write outcomes are exactly as many as the writes |
| Benchmarker.VisitedMembers | internal/benchmarker/benchmarker.go:179-181 | a metric appears among the processed metrics if and only if the log has a "Processing metric" line for it |
| Benchmarker.VisitedTurns | internal/benchmarker/benchmarker.go:179-189 | the metrics the log shows being processed are exactly the metrics of the turns, in order |
| Benchmarker.Benchmarker.ProcessMetrics | internal/benchmarker/benchmarker.go:162-193 | one limiter for the run, with limit samplesPerSecond and burst twice that, which a dry run never waits on. The turns are those of exactly a prefix of the metrics, in order; the log, the writes and their outcomes are the turns' own, in order. Success covers every metric. Before every metric exactly one look at the cancellation is made: it saw none for each processed metric, and the only error is a cancellation seen by one more look. An already cancelled run with metrics processes none |
| Environment.Context.Done | internal/benchmarker/benchmarker.go:173-177 | the non-blocking look at the run's cancellation, recorded in order; once cancelled, the run stays cancelled |
| Environment.Limiter.WaitN | internal/benchmarker/benchmarker.go:390-393 | each request is recorded. One larger than the burst fails at once. Otherwise the wait ends with the tokens or with a cancellation, and an already cancelled run always fails (the behaviour of golang.org/x/time/rate, whose timing is not modelled) |
| Benchmarker.Benchmarker.Run | internal/benchmarker/benchmarker.go:82-105 | a failed discovery logs, checks and writes nothing. Otherwise the turns are those of a prefix of the filtered names, with the burst twice samplesPerSecond; the log shows exactly these names being processed; the log, the writes and the outcomes are the turns', with one outcome per write; all names are processed unless the run is cancelled |
| Writer.Advance | internal/writer/remote_writer.go:37-44 | the next timestamp is `max(now, last + 1)`: later than the last one and not earlier than the clock |
| Writer.RemoteWriter.constructor | internal/writer/remote_writer.go:56-65 | a writer with the given endpoint and batch size and a fresh coordinator started at the clock reading; no POSTs, writes or outcomes yet |
| Writer.TimestampCoordinator.constructor | internal/writer/remote_writer.go:25-30 | the coordinator starts at the clock reading with increment 1 |
| Writer.TimestampCoordinator.NextTimestamp | internal/writer/remote_writer.go:33-45 | the field becomes `max(now, last + 1)`, which is returned and is later than every earlier timestamp |
| Writer.TimelineIncreasing | internal/writer/remote_writer.go:33-45 | for any clock readings, successive calls return strictly increasing timestamps, all after the start, one per call |
| Writer.LabelPairs | internal/writer/remote_writer.go:87-93 | one label pair per map entry, with matching names and values, in an unspecified order |
| Writer.NoneAccepted | internal/writer/remote_writer.go:101-115 | no sample value results if and only if every pair is rejected |
| Writer.RemoteWriter.StampSamples | internal/writer/remote_writer.go:100-124 | the accepted values are kept in order; each gets one fresh timestamp; rejected pairs draw none; the timestamps strictly increase |
| Writer.RemoteWriter.ConvertToTimeSeries | internal/writer/remote_writer.go:85-134 | no values is NoValuesProvided, and no accepted pair is NoValidSamples. Success happens if and only if neither applies. Then the samples hold the accepted values in order, with fresh, strictly increasing timestamps (exactly the ones the coordinator issued), and one label pair per label. A failure takes no timestamp |
| Writer.Classify | internal/writer/remote_writer.go:186-196 | a response is a success if and only if its status is in [200, 300); any other status is reported with its code |
| Writer.RemoteWriter.SendBatch | internal/writer/remote_writer.go:159-197 | one POST carries the batch, and its error is exactly the classified response |
| Writer.BatchStep | internal/writer/remote_writer.go:138-147 | a delivered POST of the window `[i, min(i+size, n))` advances the loop; a failed one ends it with that range |
| Writer.RemoteWriter.SendInBatches | internal/writer/remote_writer.go:137-156 | the POSTs carry the size-limited windows of the series, in order. Every POST but the last was delivered. Success is every window delivered. A failure stops at the first undelivered batch, reporting its `[start, end)` range and its classified error |
| Writer.RemoteWriter.WriteSamples | internal/writer/remote_writer.go:67-77 | every call and its outcome are recorded, in order. A conversion failure sends nothing and takes no timestamp; otherwise exactly one POST carries the one converted series, and the result is its delivery |
| Writer.RemoteWriter.WriteBatch | internal/writer/remote_writer.go:79-82 | the series go out in batch windows, as in sendInBatches |
| Config.BenchmarkWithDefaults | internal/config/config.go:60-74 | each benchmark integer that is zero becomes its default (2, 24, 60, 1000, 100), and every other value, negative ones included, is kept |
| Config.PrometheusWithDefaults | internal/config/config.go:75-80 | an empty URL becomes its default, and a non-empty one is kept |
| Config.Config.SetDefaults | internal/config/config.go:59-81 | the record becomes its defaulted form in place, and the replication labels, exclusions and log level are untouched |
| Config.DefaultsIdempotent | internal/config/config.go:59-81 | applying the defaults twice is applying them once |
| Config.Validate | internal/config/config.go:84-101 | success if and only if all five integers are at least 1; otherwise the first failing field, in order, is reported |
| Config.DefaultsThenValidate | internal/config/config.go:59-101 | after the defaults, validation succeeds if and only if no benchmark integer was negative |
| Logger.LogLevel.String | internal/logger/logger.go:26-43 | a name other than "UNKNOWN" if and only if the level is one of the six; those get their upper-case names |
| Logger.ToUpper | internal/logger/logger.go:88 | upper-casing maps character by character and keeps the length |
| Logger.ParseLogLevel | internal/logger/logger.go:87-104 | the parse always yields one of the six levels: an upper-cased level name gives the level of that name, "WARNING" in any case gives WARN, and every other text gives INFO |
| Logger.ParseIgnoresCase | internal/logger/logger.go:87-88 | strings equal up to case parse to the same level |
| Logger.ParseString | internal/logger/logger.go:26-104 | round trip: each defined level's name parses back to that level |
| Logger.Logger.Log | internal/logger/logger.go:121-148 | an entry is printed if and only if its level is at least the logger's; a FATAL entry that is printed ends the process |
| Logger.Registry.Init | internal/logger/logger.go:63-69 | a fresh global logger with the given level and component is installed |
| Logger.Registry.SetLevel | internal/logger/logger.go:71-76 | the installed logger gets the new level; without one, nothing happens |
| Logger.Registry.GetLevel | internal/logger/logger.go:78-84 | the installed logger's level, or INFO when there is none |
| Logger.Registry.Emit | internal/logger/logger.go:151-215 | a level function does nothing without a global logger, and otherwise logs through its gate |

## Left out

- HTTP, JSON decoding and URL building for `discoverMetrics` and `queryMetricRange`: these are network I/O, so `DiscoverMetrics` and `QueryMetricRange` may return any result or failure. The query window (`start`, `end`, `step` from `time.Now`, the range hours and the step seconds) only shapes the query, and is not modelled.
- The 30-second timeouts of both HTTP clients: they are network I/O.
- Protobuf encoding, snappy compression, request headers and the POST itself: these are wire formats and I/O. `PostRemoteWrite` may answer any `Response`. A marshalling or request-building failure is one of the `TransportFailure` answers.
- Regular expressions: `regexp.Compile` and `MatchString` are parameters (`compiles`, `matches`), because the regular-expression engine is a library.
- `strconv.ParseFloat` is a parameter (`parseFloat`), and a float is kept as its 64 bits (`Float64`), because floating point is not modelled.
- The token bucket's timing (refill rate, waiting time): `Limiter.WaitN` ends with the tokens or with the run's cancellation, at any time. So the limit `samplesPerSecond` is recorded, but throughput is not.
- `time.Now` is a clock reading that may be any value (`NowMillis`, constructor parameters), because a clock is I/O.
- The mutex of `TimestampCoordinator` and any concurrency: the model is sequential. `NextTimestamp` is atomic in it, which is the guarantee the mutex gives.
- Go's 64-bit integers: the model uses unbounded integers. `totalCombinations` could wrap around for very many labels, timestamps could overflow after `lastTimestamp` reaches the maximum, and the burst `samplesPerSecond * 2` could overflow for huge rates. None of these wrap-arounds is modelled.
- `Logger.ToUpper` covers ASCII letters and the two non-ASCII letters whose upper case is ASCII (`ı`, `ſ`), which are the only characters that can affect `ParseLogLevel`. Other Unicode case mappings of `strings.ToUpper` are not modelled.
- The JSON log line: the timestamp, the fields, `getCaller` and the marshal-failure fallback are output formatting, so they are not modelled. A printed entry is appended to `output` as its level name, message and component. `os.Exit(1)` after a FATAL entry is the returned `exit` flag, because process exit is I/O.
- `Infof`, `Debugf`, `Tracef`, `Warnf`, `Errorf` and `Fatalf` only format a message with `fmt.Sprintf` and call the level function that `Registry.Emit` models.
- `Registry.Emit` stands for the six functions `Trace` to `Fatal`, with the level as a parameter. The optional fields argument is not modelled.
- `LoadConfig` reads a file and parses YAML, which is I/O. `cmd/promfire/main.go` (flag parsing, signal handling) is not part of this model.
- `Benchmarker.Benchmarker.constructor` requires a configuration that passed `Validate`, as every caller in main.go ensures. The check `remoteWriter == nil` in NewBenchmarker can never fire, because NewRemoteWriter always returns a writer, so that error path is absent. The "Remote writer initialized" log line is not modelled.
- `Benchmarker.Event` records only the log lines the properties speak about: invalid patterns, "Processing metric", query failures, "No data found", series failures and dry-run copies. Those lines are recorded whatever the logger level, so the level gate is modelled only in `Logger`. The other Debug and Info lines (discovery and filtering counts, chunk progress, "Batch sent successfully", auto-generated values, "Starting benchmark process") are not modelled.
- Error messages are not modelled: an error is a datatype value, not the text `fmt.Errorf` would wrap it in. `ctx.Err()` is the single error `Cancelled`, and `ValidationError.Message` gives the text for `Validate`.
- The replication factor is a `nat` in `LabelCombinator`. In Go, a negative factor makes `make` panic without replication labels, or when an empty `benchmark_instance` list is auto-filled. With replication labels and no such list, `maxCombinations` is negative and no combination is produced. `Validate` rejects a negative factor, so no engine run reaches any of these cases.
- `SendInBatches`, `WriteSamples` and `WriteBatch` require `batchSize >= 1`. With a batch size of 0, the Go loop never advances. `Validate` rejects that size, and the engine's writer always has a validated one.
- Several loops and loop bodies are separate methods, each with its own contract, so that the proof stays small. These are `Benchmarker.Benchmarker.SendChunk`, `ReplicateOnce`, `ReplicateLogged`, `ReplicateAll` and `ProcessLogged` (the whole body of the metric loop, with its cancellation check), `Writer.RemoteWriter.StampSamples` and `Writer.LabelPairs`. The label-combination loops are `ReplicaCombinations`, `AutoFillCopy`, `InstanceValues`, `TotalCombinations` and `Combination`.
- `Benchmarker.Benchmarker.SendSamples` leaves its loop with `break` where Go returns the error from inside the loop. The behaviour is the same.
- Go maps iterate in an unspecified order. `Writer.LabelPairs` therefore promises the pairs as a set, with their count, not an order. `Benchmarker.CopyInto` copies keys in an arbitrary order, which does not change the resulting map.
