/** The replication engine (internal/benchmarker/benchmarker.go): it discovers the metric
    names, drops the excluded ones, queries each remaining metric over the configured range
    and writes every returned series once per label combination, rate limited in chunks.
    The HTTP queries and the regular-expression engine are outside the model: a query
    answers with any result, and `compiles` / `matches` stand for regexp.Compile and
    Regexp.MatchString. */
module Benchmarker {
  import opened Wrappers
  import opened Arith
  import opened Seqs
  import opened Config
  import opened LabelCombinator
  import Environment
  import Writer

  /** The WriteSamples calls a run makes, in order: series labels and raw values. */
  type WriteLog = seq<(map<string, string>, seq<Writer.RawPair>)>

  /** The outcomes of WriteSamples calls, in order. */
  type Outcomes = seq<Outcome<Writer.WriteError>>

  // ---------------------------------------------------------------- exclusion patterns

  /** A compiled exclusion pattern. */
  datatype Regexp = Regexp(pattern: string)

  /** The patterns regexp.Compile rejects. */
  function Invalid(compiles: string -> bool): string -> bool
  {
    p => !compiles(p)
  }

  function Compiled(patterns: seq<string>): (r: seq<Regexp>)
    ensures |r| == |patterns| && forall k :: 0 <= k < |r| ==> r[k].pattern == patterns[k]
  {
    seq(|patterns|, k requires 0 <= k < |patterns| => Regexp(patterns[k]))
  }

  lemma CompiledSnoc(patterns: seq<string>, p: string)
    ensures Compiled(patterns + [p]) == Compiled(patterns) + [Regexp(p)]
  {
    assert forall k :: 0 <= k < |patterns| ==> (patterns + [p])[k] == patterns[k];
  }

  /** The pattern loop of NewBenchmarker: every pattern that compiles is kept, in order; one
      that does not is reported and skipped, and the loop goes on with the next. */
  method CompileExcludePatterns(patterns: seq<string>, compiles: string -> bool)
    returns (regexes: seq<Regexp>, skipped: seq<string>)
    ensures regexes == Compiled(Filter(patterns, compiles))
    ensures skipped == Filter(patterns, Invalid(compiles))
  {
    regexes, skipped := [], [];
    for i := 0 to |patterns|
      invariant regexes == Compiled(Filter(patterns[..i], compiles))
      invariant skipped == Filter(patterns[..i], Invalid(compiles))
    {
      var pattern := patterns[i];
      assert patterns[..i + 1] == patterns[..i] + [pattern];
      FilterSnoc(patterns[..i], pattern, compiles);
      FilterSnoc(patterns[..i], pattern, Invalid(compiles));
      assert Invalid(compiles)(pattern) == !compiles(pattern);
      if !compiles(pattern) {
        skipped := skipped + [pattern];
        continue;
      }
      CompiledSnoc(Filter(patterns[..i], compiles), pattern);
      regexes := regexes + [Regexp(pattern)];
    }
    assert patterns[..|patterns|] == patterns;
  }

  /** A compiled pattern is kept exactly when its source compiles, and nothing else is kept. */
  lemma CompiledMembers(patterns: seq<string>, compiles: string -> bool, p: string)
    ensures Regexp(p) in Compiled(Filter(patterns, compiles)) <==> p in patterns && compiles(p)
    ensures p in Filter(patterns, Invalid(compiles)) <==> p in patterns && !compiles(p)
  {
    var kept := Filter(patterns, compiles);
    FilterMembers(patterns, compiles, p);
    FilterMembers(patterns, Invalid(compiles), p);
    if Regexp(p) in Compiled(kept) {
      var k :| 0 <= k < |kept| && Compiled(kept)[k] == Regexp(p);
      assert kept[k] == p;
    }
    if p in kept {
      var k :| 0 <= k < |kept| && kept[k] == p;
      assert Compiled(kept)[k] == Regexp(p);
    }
  }

  // ---------------------------------------------------------------- metric filtering

  /** A metric is kept when no exclusion pattern matches it. */
  function Kept(regexes: seq<Regexp>, matches: (Regexp, string) -> bool): string -> bool
  {
    metric => forall k :: 0 <= k < |regexes| ==> !matches(regexes[k], metric)
  }

  /** filterMetrics: the names no pattern matches, in their original order. The inner loop
      stops at the first pattern that matches. */
  method FilterMetrics(metrics: seq<string>, regexes: seq<Regexp>, matches: (Regexp, string) -> bool)
    returns (filtered: seq<string>)
    ensures filtered == Filter(metrics, Kept(regexes, matches))
  {
    filtered := [];
    for i := 0 to |metrics|
      invariant filtered == Filter(metrics[..i], Kept(regexes, matches))
    {
      var metric := metrics[i];
      var excluded := false;
      var j := 0;
      while j < |regexes|
        invariant 0 <= j <= |regexes| && !excluded
        invariant forall k :: 0 <= k < j ==> !matches(regexes[k], metric)
      {
        if matches(regexes[j], metric) {
          excluded := true;
          break;
        }
        j := j + 1;
      }
      assert excluded <==> !Kept(regexes, matches)(metric);
      assert metrics[..i + 1] == metrics[..i] + [metric];
      FilterSnoc(metrics[..i], metric, Kept(regexes, matches));
      if !excluded {
        filtered := filtered + [metric];
      }
    }
    assert metrics[..|metrics|] == metrics;
  }

  /** A name survives filtering exactly when it was discovered and no pattern matches it. */
  lemma FilteredMembers(metrics: seq<string>, regexes: seq<Regexp>, matches: (Regexp, string) -> bool, m: string)
    ensures m in Filter(metrics, Kept(regexes, matches)) <==>
      m in metrics && forall k :: 0 <= k < |regexes| ==> !matches(regexes[k], m)
  {
    FilterMembers(metrics, Kept(regexes, matches), m);
  }

  /** Without patterns, every discovered name is kept, in order. */
  lemma {:induction false} NoPatternsKeepAll(metrics: seq<string>, matches: (Regexp, string) -> bool)
    ensures Filter(metrics, Kept([], matches)) == metrics
  {
    if metrics != [] {
      NoPatternsKeepAll(metrics[..|metrics| - 1], matches);
      assert metrics == metrics[..|metrics| - 1] + [metrics[|metrics| - 1]];
    }
  }

  // ---------------------------------------------------------------- label merge

  /** One `for k, v := range source { target[k] = v }` loop. */
  method CopyInto(target: map<string, string>, source: map<string, string>) returns (r: map<string, string>)
    ensures r == target + source
  {
    r := target;
    var todo := source.Keys;
    while todo != {}
      invariant todo <= source.Keys
      invariant r == target + (source - todo)
      decreases todo
    {
      var k :| k in todo;
      CopyStep(target, source, todo, k);
      r := r[k := source[k]];
      todo := todo - {k};
    }
    assert source - {} == source;
  }

  /** Copying one more pending key `k` moves it from the pending set to the copied part. */
  lemma CopyStep(target: map<string, string>, source: map<string, string>, todo: set<string>, k: string)
    requires todo <= source.Keys && k in todo
    ensures (target + (source - todo))[k := source[k]] == target + (source - (todo - {k}))
  {
    var lhs := (target + (source - todo))[k := source[k]];
    var rhs := target + (source - (todo - {k}));
    assert lhs.Keys == rhs.Keys;
    forall x | x in lhs.Keys
      ensures lhs[x] == rhs[x]
    {
    }
  }

  /** The labels of one copy: the series' own labels, overwritten by the combination's. */
  method MergeLabels(base: map<string, string>, overlay: LabelSet) returns (merged: map<string, string>)
    ensures merged.Keys == base.Keys + overlay.Keys
    ensures forall k :: k in overlay ==> merged[k] == overlay[k]
    ensures forall k :: k in base && k !in overlay ==> merged[k] == base[k]
    ensures merged == base + overlay
  {
    merged := CopyInto(map[], base);
    merged := CopyInto(merged, overlay);
    assert map[] + base == base;
  }

  // ---------------------------------------------------------------- queries and the log

  /** Why a Prometheus query produced no data. */
  datatype QueryFailure = CreatingRequest | MakingRequest | ReadingResponse | ParsingResponse | StatusNotSuccess

  /** One series of a range-query result: its label map and its `[timestamp, "value"]` pairs. */
  datatype RangeSeries = RangeSeries(metric: map<string, string>, values: seq<Writer.RawPair>)

  /** discoverMetrics: the label values of `__name__`, or a failure. */
  method DiscoverMetrics() returns (r: Result<seq<string>, QueryFailure>)
  {
    r :| true;
  }

  /** queryMetricRange over the configured window: the series of the result, or a failure. */
  method QueryMetricRange(metricName: string) returns (r: Result<seq<RangeSeries>, QueryFailure>)
  {
    r :| true;
  }

  datatype SampleError = RateLimited(wait: Environment.WaitError) | ChunkWriteFailed(chunk: nat, cause: Writer.WriteError)

  datatype RunError = DiscoveryFailed(reason: QueryFailure) | Cancelled

  /** The log lines of the engine whose content the properties below speak about. */
  datatype Event =
    | PatternSkipped(pattern: string)
    | Processing(metric: string)
    | MetricFailed(metric: string, reason: QueryFailure)
    | NoData(metric: string)
    | SeriesFailed(metric: string, cause: SampleError)
    | DryRun(metric: string, labels: map<string, string>, sampleCount: nat)

  /** The metrics a log shows being processed, in order. */
  function Visited(events: seq<Event>): seq<string>
  {
    if events == [] then []
    else (if events[0].Processing? then [events[0].metric] else []) + Visited(events[1..])
  }

  /** A metric is visited exactly when the log has a Processing line for it. */
  lemma {:induction false} VisitedMembers(events: seq<Event>, m: string)
    ensures m in Visited(events) <==> exists k :: 0 <= k < |events| && events[k] == Processing(m)
    decreases |events|
  {
    if events != [] {
      VisitedMembers(events[1..], m);
      assert forall k :: 1 <= k < |events| ==> events[k] == events[1..][k - 1];
      if m in Visited(events[1..]) {
        var k :| 0 <= k < |events[1..]| && events[1..][k] == Processing(m);
        assert events[k + 1] == Processing(m);
      }
    }
  }

  lemma {:induction false} VisitedAppend(a: seq<Event>, b: seq<Event>)
    ensures Visited(a + b) == Visited(a) + Visited(b)
    decreases |a|
  {
    if a == [] {
      assert a + b == b;
    } else {
      VisitedAppend(a[1..], b);
      assert (a + b)[0] == a[0];
      assert (a + b)[1..] == a[1..] + b;
    }
  }

  /** The log lines of one dry-run copy per combination; a copy records its merged labels and
      the number of raw values it would send. */
  function DryRunEvents(metricName: string, series: RangeSeries, combos: seq<LabelSet>): (r: seq<Event>)
    ensures |r| == |combos|
    ensures forall k :: 0 <= k < |combos| ==> r[k] == DryRun(metricName, series.metric + combos[k], |series.values|)
  {
    seq(|combos|, k requires 0 <= k < |combos| => DryRun(metricName, series.metric + combos[k], |series.values|))
  }

  /** The writes of one labelled copy: one WriteSamples call per chunk. */
  function Tagged(labels: map<string, string>, chunks: seq<seq<Writer.RawPair>>): (r: WriteLog)
    ensures |r| == |chunks|
  {
    seq(|chunks|, j requires 0 <= j < |chunks| => (labels, chunks[j]))
  }

  /** The writes of all copies of one series, one copy per combination, each cut into chunks
      of at most `burst` values. */
  function ReplicaWrites(series: RangeSeries, combos: seq<LabelSet>, burst: nat): WriteLog
    requires burst >= 1
  {
    if combos == [] then []
    else ReplicaWrites(series, combos[..|combos| - 1], burst)
         + Tagged(series.metric + combos[|combos| - 1], Windows(series.values, burst))
  }

  /** Every WriteSamples call of `outcomes` succeeded. */
  ghost predicate AllPass(outcomes: Outcomes)
  {
    forall j :: 0 <= j < |outcomes| ==> outcomes[j].Pass?
  }

  lemma AllPassAppend(a: Outcomes, b: Outcomes)
    requires AllPass(a) && AllPass(b)
    ensures AllPass(a + b)
  {
    forall j | 0 <= j < |a + b|
      ensures (a + b)[j].Pass?
    {
      if j >= |a| {
        assert (a + b)[j] == b[j - |a|];
      }
    }
  }

  /** `err` reports the write outcomes of one run of chunks: a write error is the failure of
      the last write, after which no chunk was written; otherwise every write succeeded. */
  ghost predicate OutcomesMatch(outcomes: Outcomes, err: Option<SampleError>)
  {
    if err.Some? && err.value.ChunkWriteFailed? then
      && |outcomes| >= 1
      && AllPass(outcomes[..|outcomes| - 1])
      && outcomes[|outcomes| - 1] == Fail(err.value.cause)
    else AllPass(outcomes)
  }

  /** Successful writes before a run keep its outcomes matched. */
  lemma OutcomesPrefix(a: Outcomes, b: Outcomes, err: Option<SampleError>)
    requires AllPass(a) && OutcomesMatch(b, err)
    ensures OutcomesMatch(a + b, err)
  {
    if err.Some? && err.value.ChunkWriteFailed? {
      assert (a + b)[..|a + b| - 1] == a + b[..|b| - 1];
      AllPassAppend(a, b[..|b| - 1]);
      assert (a + b)[|a + b| - 1] == b[|b| - 1];
    } else {
      AllPassAppend(a, b);
    }
  }

  /** What sendSamples did, given the sizes `requests` it asked the limiter for, the chunks
      `written` it handed to the writer (`writing` says whether there is a writer), their
      write outcomes and its result: the chunks are the windows of the values, asked for one
      by one at their size; the first failure stops it, a write failure being reported with
      its 1-based chunk number and the writer's error. */
  ghost predicate ChunkRun(values: seq<Writer.RawPair>, burst: nat, requests: seq<int>,
                           written: seq<seq<Writer.RawPair>>, outcomes: Outcomes, writing: bool,
                           err: Option<SampleError>)
    requires burst >= 1
  {
    var W := Windows(values, burst);
    && |requests| <= |W|
    && requests == Sizes(W[..|requests|])
    && (err.None? ==> |requests| == |W| && written == (if writing then W else []))
    && (err.Some? && err.value.RateLimited? ==>
          && err.value.wait == Environment.WaitCancelled && |requests| >= 1
          && written == (if writing then W[..|requests| - 1] else []))
    && (err.Some? && err.value.ChunkWriteFailed? ==>
          writing && |requests| >= 1 && err.value.chunk == |requests| && written == W[..|requests|])
    && |outcomes| == |written| && OutcomesMatch(outcomes, err)
  }

  /** The warnings NewBenchmarker logs for the patterns that do not compile. */
  function Skipped(patterns: seq<string>): (r: seq<Event>)
    ensures |r| == |patterns| && forall k :: 0 <= k < |r| ==> r[k] == PatternSkipped(patterns[k])
  {
    seq(|patterns|, k requires 0 <= k < |patterns| => PatternSkipped(patterns[k]))
  }

  /** The loop state of sendSamples after the chunks before index `i`: they are the first
      windows of the values, asked for at their sizes and (with a writer) written, and every
      write succeeded. */
  ghost predicate Progress(values: seq<Writer.RawPair>, burst: nat, i: nat, reqs: seq<int>,
                           written: seq<seq<Writer.RawPair>>, outcomes: Outcomes, writing: bool)
    requires burst >= 1
  {
    var W := Windows(values, burst);
    var k := |reqs|;
    && i == k * burst && k <= |W|
    && W[k..] == Windows(values[Min(i, |values|)..], burst)
    && reqs == Sizes(W[..k])
    && written == (if writing then W[..k] else [])
    && |outcomes| == |written| && AllPass(outcomes)
  }

  /** One turn of the loop: the chunk `[i, min(i + burst, n))` is the next window, no larger
      than the burst, and sending it successfully advances the state by one window. */
  lemma ProgressStep(values: seq<Writer.RawPair>, burst: nat, i: nat, reqs: seq<int>,
                     written: seq<seq<Writer.RawPair>>, outcomes: Outcomes, writing: bool,
                     chunk: seq<Writer.RawPair>)
    requires burst >= 1 && i < |values| && Progress(values, burst, i, reqs, written, outcomes, writing)
    requires chunk == values[i..Min(i + burst, |values|)]
    ensures 1 <= |chunk| <= burst
    ensures i / burst == |reqs|
    ensures Progress(values, burst, i + burst, reqs + [|chunk|], if writing then written + [chunk] else written,
                     if writing then outcomes + [Pass] else outcomes, writing)
  {
    var W := Windows(values, burst);
    var k := |reqs|;
    WindowsNext(values, burst, i, W, k);
    TakeSnoc(W, k);
    MulDiv(k, burst);
    MulSucc(k, burst);
    SizesSnoc(W[..k], chunk);
    AllPassAppend(outcomes, [Pass]);
    var written' := if writing then written + [chunk] else written;
    assert written' == (if writing then W[..k + 1] else []);
    assert W[k + 1..] == Windows(values[Min(i + burst, |values|)..], burst);
  }

  /** The loop ran out of values: every window was sent. */
  lemma ProgressDone(values: seq<Writer.RawPair>, burst: nat, i: nat, reqs: seq<int>,
                     written: seq<seq<Writer.RawPair>>, outcomes: Outcomes, writing: bool)
    requires burst >= 1 && i >= |values| && Progress(values, burst, i, reqs, written, outcomes, writing)
    ensures ChunkRun(values, burst, reqs, written, outcomes, writing, None)
  {
    var W := Windows(values, burst);
    assert values[Min(i, |values|)..] == [];
    assert W[..|reqs|] == W;
  }

  lemma TaggedSnoc(before: WriteLog, labels: map<string, string>,
                   written: seq<seq<Writer.RawPair>>, chunk: seq<Writer.RawPair>)
    ensures before + Tagged(labels, written + [chunk]) == before + Tagged(labels, written) + [(labels, chunk)]
  {
    assert Tagged(labels, written + [chunk]) == Tagged(labels, written) + [(labels, chunk)];
  }

  /** sendSamples stopped at the chunk that starts at `i`, with `err`; a write failure adds
      the chunk and its failed outcome. */
  lemma ProgressStopped(values: seq<Writer.RawPair>, burst: nat, i: nat, reqs: seq<int>,
                        written: seq<seq<Writer.RawPair>>, outcomes: Outcomes, writing: bool,
                        chunk: seq<Writer.RawPair>, err: Option<SampleError>)
    requires burst >= 1 && i < |values| && Progress(values, burst, i, reqs, written, outcomes, writing) && err.Some?
    requires chunk == values[i..Min(i + burst, |values|)]
    requires err.value.RateLimited? ==> err.value.wait == Environment.WaitCancelled
    requires err.value.ChunkWriteFailed? ==> writing && err.value.chunk == |reqs| + 1
    ensures ChunkRun(values, burst, reqs + [|chunk|],
                     if err.value.ChunkWriteFailed? then written + [chunk] else written,
                     if err.value.ChunkWriteFailed? then outcomes + [Fail(err.value.cause)] else outcomes,
                     writing, err)
  {
    ProgressStep(values, burst, i, reqs, written, outcomes, writing, chunk);
    if err.value.ChunkWriteFailed? {
      assert (outcomes + [Fail(err.value.cause)])[..|outcomes|] == outcomes;
    }
  }

  /** The chunk `[i, min(i + burst, n))` of the loop's turn number `k` has 1 to burst
      values and number `i / burst + 1 == k + 1`. */
  lemma ChunkFits(values: seq<Writer.RawPair>, burst: nat, i: nat, k: nat, chunk: seq<Writer.RawPair>)
    requires burst >= 1 && i < |values| && i == k * burst
    requires chunk == values[i..Min(i + burst, |values|)]
    ensures 1 <= |chunk| <= burst && i / burst == k
  {
    MulDiv(k, burst);
  }

  /** One turn of sendSamples, given what sending the chunk at `i` did (`err`, and `wrote`,
      the outcome of its write if it was written): the turn asked for the chunk's size and
      wrote the chunk if it was written; success advances the loop state by one window, and
      a failure ends the run of chunks with that error. */
  lemma ChunkTurn(values: seq<Writer.RawPair>, burst: nat, i: nat, reqs: seq<int>,
                  written: seq<seq<Writer.RawPair>>, outcomes: Outcomes, writing: bool,
                  chunk: seq<Writer.RawPair>, err: Option<SampleError>, wrote: Option<Outcome<Writer.WriteError>>,
                  reqs': seq<int>, written': seq<seq<Writer.RawPair>>, outcomes': Outcomes)
    requires burst >= 1 && i < |values| && Progress(values, burst, i, reqs, written, outcomes, writing)
    requires chunk == values[i..Min(i + burst, |values|)]
    requires wrote.Some? <==> writing && !(err.Some? && err.value.RateLimited?)
    requires err.None? ==> wrote.None? || wrote.value.Pass?
    requires wrote.Some? && wrote.value.Fail? ==> err == Some(ChunkWriteFailed(|reqs| + 1, wrote.value.error))
    requires err.Some? && err.value.ChunkWriteFailed? ==> wrote == Some(Fail(err.value.cause)) && err.value.chunk == |reqs| + 1
    requires err.Some? && err.value.RateLimited? ==> err.value.wait == Environment.WaitCancelled
    requires reqs' == reqs + [|chunk|]
    requires written' == if wrote.Some? then written + [chunk] else written
    requires outcomes' == if wrote.Some? then outcomes + [wrote.value] else outcomes
    ensures err.None? ==> Progress(values, burst, i + burst, reqs', written', outcomes', writing)
    ensures err.Some? ==> ChunkRun(values, burst, reqs', written', outcomes', writing, err)
  {
    if err.None? {
      ProgressStep(values, burst, i, reqs, written, outcomes, writing, chunk);
    } else {
      ProgressStopped(values, burst, i, reqs, written, outcomes, writing, chunk, err);
    }
  }

  /** A failed sendSamples handed the writer a prefix of the windows; a write failure names
      the chunk it stopped at, a rate-limiting failure comes from a cancellation. */
  lemma ChunkRunFailed(values: seq<Writer.RawPair>, burst: nat, requests: seq<int>,
                       written: seq<seq<Writer.RawPair>>, outcomes: Outcomes, err: Option<SampleError>)
    requires burst >= 1 && err.Some? && ChunkRun(values, burst, requests, written, outcomes, true, err)
    ensures written <= Windows(values, burst) && |written| <= |Windows(values, burst)|
    ensures err.value.RateLimited? ==> err.value.wait == Environment.WaitCancelled && |written| < |Windows(values, burst)|
    ensures err.value.ChunkWriteFailed? ==> err.value.chunk == |written| >= 1
  {
    var W := Windows(values, burst);
    if err.value.RateLimited? {
      assert W[..|requests| - 1] <= W;
    } else {
      assert W[..|requests|] <= W;
    }
  }

  lemma ReplicaWritesSnoc(series: RangeSeries, combos: seq<LabelSet>, burst: nat, i: nat)
    requires burst >= 1 && i < |combos|
    ensures ReplicaWrites(series, combos[..i + 1], burst)
      == ReplicaWrites(series, combos[..i], burst) + Tagged(series.metric + combos[i], Windows(series.values, burst))
  {
    assert combos[..i + 1][..i] == combos[..i];
  }

  lemma DryRunEventsSnoc(metricName: string, series: RangeSeries, combos: seq<LabelSet>, i: nat)
    requires i < |combos|
    ensures DryRunEvents(metricName, series, combos[..i + 1])
      == DryRunEvents(metricName, series, combos[..i]) + [DryRun(metricName, series.metric + combos[i], |series.values|)]
  {
    assert DryRunEvents(metricName, series, combos[..i + 1])
      == DryRunEvents(metricName, series, combos[..i]) + [DryRun(metricName, series.metric + combos[i], |series.values|)];
  }

  /** The replicateSeries loop after the first `i` combinations: a dry run logged their
      copies; otherwise nothing was logged and their copies were written. */
  ghost predicate ReplicaProgress(dry: bool, metricName: string, series: RangeSeries, combos: seq<LabelSet>, burst: nat,
                                  i: nat, logged: seq<Event>, writes0: WriteLog, writes: WriteLog)
    requires burst >= 1
  {
    && i <= |combos|
    && if dry then logged == DryRunEvents(metricName, series, combos[..i])
       else logged == [] && writes == writes0 + ReplicaWrites(series, combos[..i], burst)
  }

  lemma ReplicaStep(dry: bool, metricName: string, series: RangeSeries, combos: seq<LabelSet>, burst: nat,
                    i: nat, logged: seq<Event>, more: seq<Event>, writes0: WriteLog, writesA: WriteLog, writesB: WriteLog)
    requires burst >= 1 && i < |combos|
    requires ReplicaProgress(dry, metricName, series, combos, burst, i, logged, writes0, writesA)
    requires dry ==> more == [DryRun(metricName, series.metric + combos[i], |series.values|)]
    requires !dry ==> more == [] && writesB == writesA + Tagged(series.metric + combos[i], Windows(series.values, burst))
    ensures ReplicaProgress(dry, metricName, series, combos, burst, i + 1, logged + more, writes0, writesB)
  {
    if dry {
      DryRunEventsSnoc(metricName, series, combos, i);
    } else {
      ReplicaWritesSnoc(series, combos, burst, i);
      AppendAssoc(writes0, ReplicaWrites(series, combos[..i], burst),
                  Tagged(series.metric + combos[i], Windows(series.values, burst)));
    }
  }

  /** Log lines without a Processing line add no visited metric. */
  lemma {:induction false} VisitedNone(events: seq<Event>)
    requires forall k :: 0 <= k < |events| ==> !events[k].Processing?
    ensures Visited(events) == []
    decreases |events|
  {
    if events != [] {
      VisitedNone(events[1..]);
    }
  }

  /** The dry-run log lines of every series of a result. */
  function DryRunAll(metricName: string, result: seq<RangeSeries>, combos: seq<LabelSet>): (r: seq<Event>)
    ensures Visited(r) == []
  {
    if result == [] then []
    else
      var r' := DryRunAll(metricName, result[..|result| - 1], combos);
      var last := DryRunEvents(metricName, result[|result| - 1], combos);
      VisitedAppend(r', last);
      VisitedNone(last);
      r' + last
  }

  /** The writes of every copy of every series of a result, series by series. */
  function AllReplicaWrites(result: seq<RangeSeries>, combos: seq<LabelSet>, burst: nat): WriteLog
    requires burst >= 1
  {
    if result == [] then []
    else AllReplicaWrites(result[..|result| - 1], combos, burst) + ReplicaWrites(result[|result| - 1], combos, burst)
  }

  // ---------------------------------------------------------------- replicating one series

  /** How replicateSeries ended for one series: its error, the number of copies completed,
      the chunks written of the copy that failed, and the outcomes of its writes. */
  datatype Attempt = Attempt(err: Option<SampleError>, used: nat, partial: seq<seq<Writer.RawPair>>, outcomes: Outcomes)

  /** An attempt replicateSeries can end with (`cancelled` is whether the run is cancelled
      by now): success completes every copy; a failure stops inside a copy after a prefix of
      its chunks, and its error reports what went wrong. */
  ghost predicate AttemptOk(a: Attempt, series: RangeSeries, combos: seq<LabelSet>, burst: nat, cancelled: bool)
    requires burst >= 1
  {
    && OutcomesMatch(a.outcomes, a.err)
    && (a.err.None? ==> a.used == |combos| && a.partial == [])
    && (a.err.Some? ==> a.used < |combos| && a.partial <= Windows(series.values, burst))
    && (a.err.Some? && a.err.value.RateLimited? ==>
          a.err.value.wait == Environment.WaitCancelled && cancelled && |a.partial| < |Windows(series.values, burst)|)
    && (a.err.Some? && a.err.value.ChunkWriteFailed? ==> a.err.value.chunk == |a.partial| >= 1)
  }

  /** The attempt of a series whose first wait already finds the run cancelled: no copy is
      completed and nothing is written. */
  const Halted := Attempt(Some(RateLimited(Environment.WaitCancelled)), 0, [], [])

  /** A rate-limited attempt stopped inside a copy that still had a chunk to wait for, so
      a series without values is never rate limited. */
  lemma RateLimitedHadChunks(a: Attempt, series: RangeSeries, combos: seq<LabelSet>, burst: nat, cancelled: bool)
    requires burst >= 1 && AttemptOk(a, series, combos, burst, cancelled)
    requires a.err.Some? && a.err.value.RateLimited?
    ensures |series.values| >= 1 && |a.partial| < |Windows(series.values, burst)|
  {
  }

  /** The writes of one attempt: every copy on success; otherwise the completed copies and
      the chunks written of the failed one. */
  function AttemptWrites(series: RangeSeries, combos: seq<LabelSet>, burst: nat, a: Attempt): WriteLog
    requires burst >= 1
  {
    if a.err.None? || a.used >= |combos| then ReplicaWrites(series, combos, burst)
    else ReplicaWrites(series, combos[..a.used], burst) + Tagged(series.metric + combos[a.used], a.partial)
  }

  /** Every write of an attempt has its outcome. */
  ghost predicate Counted(series: RangeSeries, combos: seq<LabelSet>, burst: nat, a: Attempt)
    requires burst >= 1
  {
    |a.outcomes| == |AttemptWrites(series, combos, burst, a)|
  }

  /** The line processMetric logs for one attempt: the error of a failed series, nothing otherwise. */
  function AttemptEvents(metricName: string, a: Attempt): (r: seq<Event>)
    ensures Visited(r) == []
  {
    var r := if a.err.Some? then [SeriesFailed(metricName, a.err.value)] else [];
    VisitedNone(r);
    r
  }

  /** What one turn of the processMetric loop did for `series`, with `a` the way
      replicateSeries ended: a dry run logged the copies and never fails; otherwise exactly the
      failure, if any, was logged, and the writes and their outcomes are those of `a`. */
  ghost predicate SeriesOutcome(dry: bool, metricName: string, combos: seq<LabelSet>, burst: nat, series: RangeSeries,
                                a: Attempt, cancelled: bool, logged: seq<Event>,
                                writes0: WriteLog, writes: WriteLog, results0: Outcomes, results: Outcomes)
    requires burst >= 1
  {
    && AttemptOk(a, series, combos, burst, cancelled)
    && if dry then
         && a.err.None? && a.outcomes == []
         && logged == DryRunEvents(metricName, series, combos) && writes == writes0 && results == results0
       else
         && logged == AttemptEvents(metricName, a)
         && writes == writes0 + AttemptWrites(series, combos, burst, a)
         && results == results0 + a.outcomes
         && Counted(series, combos, burst, a)
  }

  // ---------------------------------------------------------------- the series loop

  /** The failure lines of a sequence of attempts, in order. */
  function Failures(metricName: string, attempts: seq<Attempt>): (r: seq<Event>)
    ensures Visited(r) == []
  {
    if attempts == [] then []
    else
      var r' := Failures(metricName, attempts[..|attempts| - 1]);
      var last := AttemptEvents(metricName, attempts[|attempts| - 1]);
      VisitedAppend(r', last);
      r' + last
  }

  /** The writes of the series `done`, each with its attempt, series by series. */
  function LoopWrites(done: seq<RangeSeries>, attempts: seq<Attempt>, combos: seq<LabelSet>, burst: nat): WriteLog
    requires burst >= 1 && |attempts| == |done|
  {
    if done == [] then []
    else LoopWrites(done[..|done| - 1], attempts[..|attempts| - 1], combos, burst)
         + AttemptWrites(done[|done| - 1], combos, burst, attempts[|attempts| - 1])
  }

  /** The write outcomes of a sequence of attempts, in order. */
  function LoopOutcomes(attempts: seq<Attempt>): Outcomes
  {
    if attempts == [] then [] else LoopOutcomes(attempts[..|attempts| - 1]) + attempts[|attempts| - 1].outcomes
  }

  /** The lines the series loop logs for the series `done`. */
  function SeriesEvents(dry: bool, metricName: string, done: seq<RangeSeries>, attempts: seq<Attempt>,
                        combos: seq<LabelSet>): (r: seq<Event>)
    ensures Visited(r) == []
  {
    if dry then DryRunAll(metricName, done, combos) else Failures(metricName, attempts)
  }

  /** One attempt per series, each one replicateSeries can end with; a dry run never fails,
      otherwise every write of an attempt has its outcome. */
  ghost predicate AttemptsOk(dry: bool, done: seq<RangeSeries>, attempts: seq<Attempt>, combos: seq<LabelSet>,
                             burst: nat, cancelled: bool)
    requires burst >= 1
  {
    && |attempts| == |done|
    && (forall k :: 0 <= k < |done| ==> AttemptOk(attempts[k], done[k], combos, burst, cancelled))
    && (dry ==> forall k :: 0 <= k < |attempts| ==> attempts[k].err.None? && attempts[k].outcomes == [])
    && (!dry ==> forall k :: 0 <= k < |attempts| ==> Counted(done[k], combos, burst, attempts[k]))
  }

  /** Once the run is cancelled it stays cancelled, so attempts stay possible. */
  lemma AttemptsOkLater(dry: bool, done: seq<RangeSeries>, attempts: seq<Attempt>, combos: seq<LabelSet>,
                        burst: nat, c1: bool, c2: bool)
    requires burst >= 1 && (c1 ==> c2) && AttemptsOk(dry, done, attempts, combos, burst, c1)
    ensures AttemptsOk(dry, done, attempts, combos, burst, c2)
  {
    forall k | 0 <= k < |done|
      ensures AttemptOk(attempts[k], done[k], combos, burst, c2)
    {
      assert AttemptOk(attempts[k], done[k], combos, burst, c1);
    }
  }

  /** The processMetric loop after the series `done` with their attempts: a dry run logged all
      their copies and wrote nothing; otherwise it logged exactly the failures, in order, and
      the writes and their outcomes are those of every attempt, series by series, one outcome
      per write. */
  ghost predicate SeriesLoop(dry: bool, metricName: string, combos: seq<LabelSet>, burst: nat, done: seq<RangeSeries>,
                             attempts: seq<Attempt>, cancelled: bool, logged: seq<Event>,
                             writes0: WriteLog, writes: WriteLog, results0: Outcomes, results: Outcomes)
    requires burst >= 1
  {
    && AttemptsOk(dry, done, attempts, combos, burst, cancelled)
    && logged == SeriesEvents(dry, metricName, done, attempts, combos)
    && writes == writes0 + (if dry then [] else LoopWrites(done, attempts, combos, burst))
    && results == results0 + (if dry then [] else LoopOutcomes(attempts))
    && |results| - |results0| == |writes| - |writes0|
  }

  lemma SeriesLoopStep(dry: bool, metricName: string, combos: seq<LabelSet>, burst: nat, done: seq<RangeSeries>,
                       attempts: seq<Attempt>, series: RangeSeries, a: Attempt, c1: bool, c2: bool,
                       logged: seq<Event>, more: seq<Event>,
                       writes0: WriteLog, writesA: WriteLog, writesB: WriteLog,
                       results0: Outcomes, resultsA: Outcomes, resultsB: Outcomes)
    requires burst >= 1 && (c1 ==> c2)
    requires SeriesLoop(dry, metricName, combos, burst, done, attempts, c1, logged, writes0, writesA, results0, resultsA)
    requires SeriesOutcome(dry, metricName, combos, burst, series, a, c2, more, writesA, writesB, resultsA, resultsB)
    ensures SeriesLoop(dry, metricName, combos, burst, done + [series], attempts + [a], c2, logged + more,
                       writes0, writesB, results0, resultsB)
  {
    var done', attempts' := done + [series], attempts + [a];
    assert done'[..|done|] == done && attempts'[..|attempts|] == attempts;
    AttemptsOkLater(dry, done, attempts, combos, burst, c1, c2);
    forall k | 0 <= k < |done'|
      ensures AttemptOk(attempts'[k], done'[k], combos, burst, c2)
    {
      if k < |done| {
        assert attempts'[k] == attempts[k] && done'[k] == done[k];
      }
    }
    if !dry {
      AppendAssoc(writes0, LoopWrites(done, attempts, combos, burst), AttemptWrites(series, combos, burst, a));
      AppendAssoc(results0, LoopOutcomes(attempts), a.outcomes);
    }
  }

  /** Cancellation halts the series loop: once the run is cancelled, before the loop
      (`cancelled0`) or during a series that was then rate limited, every later series with
      values fails at its first wait. A dry run never waits. */
  ghost predicate CancelHalts(dry: bool, cancelled0: bool, done: seq<RangeSeries>, attempts: seq<Attempt>)
  {
    && |attempts| == |done|
    && (!dry && cancelled0 ==> forall k :: 0 <= k < |done| && |done[k].values| >= 1 ==> attempts[k] == Halted)
    && (!dry ==> forall k, k' ::
          0 <= k < k' < |done| && attempts[k].err.Some? && attempts[k].err.value.RateLimited? && |done[k'].values| >= 1
          ==> attempts[k'] == Halted)
  }

  /** One more series keeps the loop halted: `cancelled` is whether the run was cancelled
      when the series began, and a cancelled run halts a series with values at once. */
  lemma CancelHaltsStep(dry: bool, cancelled0: bool, combos: seq<LabelSet>, burst: nat, done: seq<RangeSeries>,
                        attempts: seq<Attempt>, series: RangeSeries, a: Attempt, cancelled: bool)
    requires burst >= 1 && (cancelled0 ==> cancelled)
    requires CancelHalts(dry, cancelled0, done, attempts) && AttemptsOk(dry, done, attempts, combos, burst, cancelled)
    requires !dry && cancelled && |series.values| >= 1 ==> a == Halted
    ensures CancelHalts(dry, cancelled0, done + [series], attempts + [a])
  {
    var done', attempts' := done + [series], attempts + [a];
    if !dry {
      forall k, k' | 0 <= k < k' < |done'| && attempts'[k].err.Some? && attempts'[k].err.value.RateLimited?
                     && |done'[k'].values| >= 1
        ensures attempts'[k'] == Halted
      {
        assert attempts'[k] == attempts[k] && done[k] == done'[k];
        assert AttemptOk(attempts[k], done[k], combos, burst, cancelled);
        if k' < |done| {
          assert attempts'[k'] == attempts[k'] && done'[k'] == done[k'];
        }
      }
      if cancelled0 {
        forall k | 0 <= k < |done'| && |done'[k].values| >= 1
          ensures attempts'[k] == Halted
        {
          if k < |done| {
            assert attempts'[k] == attempts[k] && done'[k] == done[k];
          }
        }
      }
    }
  }

  /** No failure line is logged exactly when every series was replicated without error. */
  lemma {:induction false} NoFailures(metricName: string, attempts: seq<Attempt>)
    ensures Failures(metricName, attempts) == [] <==> forall k :: 0 <= k < |attempts| ==> attempts[k].err.None?
  {
    if attempts != [] {
      var init := attempts[..|attempts| - 1];
      NoFailures(metricName, init);
      assert forall k :: 0 <= k < |init| ==> init[k] == attempts[k];
    }
  }

  /** When no series failed, every copy of every series was written, series by series. */
  lemma {:induction false} NoFailuresAllWritten(done: seq<RangeSeries>, attempts: seq<Attempt>, combos: seq<LabelSet>,
                                                burst: nat)
    requires burst >= 1 && |attempts| == |done|
    requires forall k :: 0 <= k < |attempts| ==> attempts[k].err.None?
    ensures LoopWrites(done, attempts, combos, burst) == AllReplicaWrites(done, combos, burst)
  {
    if done != [] {
      var init := attempts[..|attempts| - 1];
      assert forall k :: 0 <= k < |init| ==> init[k] == attempts[k];
      NoFailuresAllWritten(done[..|done| - 1], init, combos, burst);
    }
  }

  // ---------------------------------------------------------------- one metric

  /** One turn of the processMetrics loop: the metric, the failure of its query (if any), the
      series of the result, and how the replication of each series ended. */
  datatype Turn = Turn(metric: string, query: Option<QueryFailure>, result: seq<RangeSeries>, attempts: seq<Attempt>)

  /** A failed query has no series, and every series has a possible attempt. */
  ghost predicate TurnOk(dry: bool, combos: seq<LabelSet>, burst: nat, t: Turn, cancelled: bool)
    requires burst >= 1
  {
    && (t.query.Some? ==> t.result == [])
    && AttemptsOk(dry, t.result, t.attempts, combos, burst, cancelled)
  }

  /** The lines of one turn: "Processing metric", then the query's failure, or "No data
      found", or the lines of the series loop. */
  function TurnEvents(dry: bool, combos: seq<LabelSet>, t: Turn): (r: seq<Event>)
    ensures Visited(r) == [t.metric]
  {
    var body :=
      if t.query.Some? then [MetricFailed(t.metric, t.query.value)]
      else if t.result == [] then [NoData(t.metric)]
      else SeriesEvents(dry, t.metric, t.result, t.attempts, combos);
    VisitedAppend([Processing(t.metric)], body);
    assert Visited([Processing(t.metric)]) == [t.metric];
    [Processing(t.metric)] + body
  }

  /** The writes of one turn: none for a dry run or a failed query, otherwise the series loop's. */
  function TurnWrites(dry: bool, combos: seq<LabelSet>, burst: nat, t: Turn): WriteLog
    requires burst >= 1
  {
    if dry || t.query.Some? || |t.attempts| != |t.result| then [] else LoopWrites(t.result, t.attempts, combos, burst)
  }

  function TurnOutcomes(dry: bool, t: Turn): Outcomes
  {
    if dry || t.query.Some? then [] else LoopOutcomes(t.attempts)
  }

  /** The metrics of a sequence of turns. */
  function Metrics(turns: seq<Turn>): (r: seq<string>)
    ensures |r| == |turns| && forall k :: 0 <= k < |turns| ==> r[k] == turns[k].metric
  {
    seq(|turns|, k requires 0 <= k < |turns| => turns[k].metric)
  }

  function AllTurnEvents(dry: bool, combos: seq<LabelSet>, turns: seq<Turn>): seq<Event>
  {
    if turns == [] then [] else AllTurnEvents(dry, combos, turns[..|turns| - 1]) + TurnEvents(dry, combos, turns[|turns| - 1])
  }

  function AllTurnWrites(dry: bool, combos: seq<LabelSet>, burst: nat, turns: seq<Turn>): WriteLog
    requires burst >= 1
  {
    if turns == [] then []
    else AllTurnWrites(dry, combos, burst, turns[..|turns| - 1]) + TurnWrites(dry, combos, burst, turns[|turns| - 1])
  }

  function AllTurnOutcomes(dry: bool, turns: seq<Turn>): Outcomes
  {
    if turns == [] then [] else AllTurnOutcomes(dry, turns[..|turns| - 1]) + TurnOutcomes(dry, turns[|turns| - 1])
  }

  /** The metrics a run's log shows being processed are exactly the metrics of its turns. */
  lemma {:induction false} VisitedTurns(dry: bool, combos: seq<LabelSet>, turns: seq<Turn>)
    ensures Visited(AllTurnEvents(dry, combos, turns)) == Metrics(turns)
  {
    if turns != [] {
      var init, last := turns[..|turns| - 1], turns[|turns| - 1];
      VisitedTurns(dry, combos, init);
      var before, more := AllTurnEvents(dry, combos, init), TurnEvents(dry, combos, last);
      assert AllTurnEvents(dry, combos, turns) == before + more;
      VisitedAppend(before, more);
      MetricsSnoc(init, last);
      assert turns == init + [last];
    }
  }

  lemma MetricsSnoc(turns: seq<Turn>, t: Turn)
    ensures Metrics(turns + [t]) == Metrics(turns) + [t.metric]
  {
    assert forall k :: 0 <= k < |turns| ==> (turns + [t])[k] == turns[k];
  }

  /** The looks at `ctx.Done()` of processMetrics: one that saw no cancellation per processed
      metric, and a last one that saw it when the run was cancelled. */
  function DoneChecks(processed: nat, stopped: bool): (r: seq<bool>)
    ensures |r| == processed + (if stopped then 1 else 0)
    ensures forall k :: 0 <= k < processed ==> !r[k]
    ensures stopped ==> r[processed]
  {
    seq(processed, k => false) + (if stopped then [true] else [])
  }

  /** One more look: a cancellation seen ends the looks, otherwise one more metric is processed. */
  lemma DoneChecksSnoc(checks0: seq<bool>, processed: nat, done: bool)
    ensures checks0 + DoneChecks(processed, false) + [done]
         == checks0 + (if done then DoneChecks(processed, true) else DoneChecks(processed + 1, false))
  {
    assert seq(processed + 1, k => false) == seq(processed, k => false) + [false];
  }

  /** Once the run is cancelled it stays cancelled, so the turns stay possible. */
  lemma TurnsOkLater(dry: bool, combos: seq<LabelSet>, burst: nat, turns: seq<Turn>, c1: bool, c2: bool)
    requires burst >= 1 && (c1 ==> c2)
    requires forall k :: 0 <= k < |turns| ==> TurnOk(dry, combos, burst, turns[k], c1)
    ensures forall k :: 0 <= k < |turns| ==> TurnOk(dry, combos, burst, turns[k], c2)
  {
    forall k | 0 <= k < |turns|
      ensures TurnOk(dry, combos, burst, turns[k], c2)
    {
      AttemptsOkLater(dry, turns[k].result, turns[k].attempts, combos, burst, c1, c2);
    }
  }

  /** The processMetrics loop after `turns`: they are the turns of the first metrics, in
      order, each one possible, and the log, the writes and their outcomes are theirs. */
  ghost predicate TurnLoop(dry: bool, combos: seq<LabelSet>, burst: nat, metrics: seq<string>, turns: seq<Turn>,
                           cancelled: bool, events0: seq<Event>, events: seq<Event>,
                           writes0: WriteLog, writes: WriteLog, results0: Outcomes, results: Outcomes)
    requires burst >= 1
  {
    && |turns| <= |metrics| && Metrics(turns) == metrics[..|turns|]
    && (forall k :: 0 <= k < |turns| ==> TurnOk(dry, combos, burst, turns[k], cancelled))
    && events == events0 + AllTurnEvents(dry, combos, turns)
    && writes == writes0 + AllTurnWrites(dry, combos, burst, turns)
    && results == results0 + AllTurnOutcomes(dry, turns)
  }

  /** What one turn of the processMetrics loop did for `metric`: `t` is a possible turn for
      it, and the log, the writes and their outcomes grew by exactly the turn's. */
  ghost predicate TurnDone(dry: bool, combos: seq<LabelSet>, burst: nat, metric: string, t: Turn, cancelled: bool,
                           events0: seq<Event>, events: seq<Event>, writes0: WriteLog, writes: WriteLog,
                           results0: Outcomes, results: Outcomes)
    requires burst >= 1
  {
    && t.metric == metric && TurnOk(dry, combos, burst, t, cancelled)
    && events == events0 + TurnEvents(dry, combos, t)
    && writes == writes0 + TurnWrites(dry, combos, burst, t)
    && results == results0 + TurnOutcomes(dry, t)
  }

  lemma TurnLoopStep(dry: bool, combos: seq<LabelSet>, burst: nat, metrics: seq<string>, turns: seq<Turn>, turn: Turn,
                     c1: bool, c2: bool, events0: seq<Event>, eventsA: seq<Event>, eventsB: seq<Event>,
                     writes0: WriteLog, writesA: WriteLog, writesB: WriteLog,
                     results0: Outcomes, resultsA: Outcomes, resultsB: Outcomes)
    requires burst >= 1 && (c1 ==> c2) && |turns| < |metrics|
    requires TurnLoop(dry, combos, burst, metrics, turns, c1, events0, eventsA, writes0, writesA, results0, resultsA)
    requires TurnDone(dry, combos, burst, metrics[|turns|], turn, c2, eventsA, eventsB, writesA, writesB, resultsA, resultsB)
    ensures TurnLoop(dry, combos, burst, metrics, turns + [turn], c2, events0, eventsB, writes0, writesB, results0, resultsB)
  {
    var turns' := turns + [turn];
    TurnsOkLater(dry, combos, burst, turns, c1, c2);
    assert turns'[..|turns|] == turns;
    MetricsSnoc(turns, turn);
    TakeSnoc(metrics, |turns|);
    AppendAssoc(events0, AllTurnEvents(dry, combos, turns), TurnEvents(dry, combos, turn));
    AppendAssoc(writes0, AllTurnWrites(dry, combos, burst, turns), TurnWrites(dry, combos, burst, turn));
    AppendAssoc(results0, AllTurnOutcomes(dry, turns), TurnOutcomes(dry, turn));
    forall k | 0 <= k < |turns'|
      ensures TurnOk(dry, combos, burst, turns'[k], c2)
    {
      if k < |turns| {
        assert turns'[k] == turns[k];
      }
    }
  }

  /** Every write of a series loop has its outcome, when every attempt's writes have theirs. */
  lemma {:induction false} LoopCounts(done: seq<RangeSeries>, attempts: seq<Attempt>, combos: seq<LabelSet>, burst: nat)
    requires burst >= 1 && |attempts| == |done|
    requires forall k :: 0 <= k < |attempts| ==> Counted(done[k], combos, burst, attempts[k])
    ensures |LoopOutcomes(attempts)| == |LoopWrites(done, attempts, combos, burst)|
    decreases |done|
  {
    if done != [] {
      var done', attempts' := done[..|done| - 1], attempts[..|attempts| - 1];
      assert forall k :: 0 <= k < |done'| ==> done'[k] == done[k] && attempts'[k] == attempts[k];
      assert Counted(done[|done| - 1], combos, burst, attempts[|attempts| - 1]);
      LoopCounts(done', attempts', combos, burst);
    }
  }

  /** Every write of a run has its outcome: the turns' outcomes are as many as their writes. */
  lemma {:induction false} TurnCounts(dry: bool, combos: seq<LabelSet>, burst: nat, turns: seq<Turn>, cancelled: bool)
    requires burst >= 1 && forall k :: 0 <= k < |turns| ==> TurnOk(dry, combos, burst, turns[k], cancelled)
    ensures |AllTurnOutcomes(dry, turns)| == |AllTurnWrites(dry, combos, burst, turns)|
    decreases |turns|
  {
    if turns != [] {
      var init, last := turns[..|turns| - 1], turns[|turns| - 1];
      assert forall k :: 0 <= k < |init| ==> init[k] == turns[k];
      TurnCounts(dry, combos, burst, init, cancelled);
      assert TurnOk(dry, combos, burst, last, cancelled);
      if !dry && last.query.None? {
        LoopCounts(last.result, last.attempts, combos, burst);
      }
    }
  }

  // ---------------------------------------------------------------- the engine

  class Benchmarker {
    /** The benchmark settings and replication labels, as read from the configuration. */
    const settings: Benchmark
    const replication: seq<ReplicationLabel>
    const dryRun: bool
    const excludeRegexes: seq<Regexp>
    const matches: (Regexp, string) -> bool
    /** Present exactly when this is not a dry run. */
    const remoteWriter: Writer.RemoteWriter?
    /** The log lines written so far. */
    var events: seq<Event>

    /** The writer state the engine changes. */
    ghost function WriterRepr(): set<object>
    {
      if remoteWriter == null then {} else {remoteWriter, remoteWriter.coordinator}
    }

    /** What the writer has been asked to write so far (nothing in a dry run). */
    ghost function Writes(): WriteLog
      reads WriterRepr()
    {
      if remoteWriter == null then [] else remoteWriter.writes
    }

    /** The outcomes of the writer's WriteSamples calls so far, in order. */
    ghost function Results(): Outcomes
      reads WriterRepr()
    {
      if remoteWriter == null then [] else remoteWriter.results
    }

    /** The label combinations of every series' copies. */
    ghost function Copies(): seq<LabelSet>
      requires settings.replicationFactor >= 1
    {
      Combinations(replication, settings.replicationFactor as nat)
    }

    ghost predicate Valid()
      reads WriterRepr()
    {
      && settings.replicationFactor >= 1 && settings.samplesPerSecond >= 1 && settings.batchSize >= 1
      && (remoteWriter == null <==> dryRun)
      && (remoteWriter != null ==> remoteWriter.batchSize == settings.batchSize && remoteWriter.coordinator.Valid())
    }

    /** NewBenchmarker, for a configuration that passed Validate. `compiles` and `matches`
        stand for the regular-expression library, `parseFloat` for strconv.ParseFloat and
        `now` for the clock reading that starts the writer's coordinator. */
    constructor (cfg: Config, dryRun: bool, compiles: string -> bool, matches: (Regexp, string) -> bool,
                 parseFloat: string -> Option<Writer.Float64>, now: int)
      requires Validate(cfg.benchmark) == Pass
      ensures Valid()
      ensures settings == cfg.benchmark && replication == cfg.replication && this.dryRun == dryRun
      ensures this.matches == matches
      ensures excludeRegexes == Compiled(Filter(cfg.excludeMetrics, compiles))
      ensures events == Skipped(Filter(cfg.excludeMetrics, Invalid(compiles)))
      ensures remoteWriter != null ==>
        && fresh(remoteWriter) && fresh(remoteWriter.coordinator)
        && remoteWriter.endpoint == cfg.prometheus.remoteWriteUrl
        && remoteWriter.parseFloat == parseFloat
        && remoteWriter.posts == [] && remoteWriter.writes == [] && remoteWriter.results == []
        && remoteWriter.coordinator.issued == []
    {
      assert Fields(cfg.benchmark)[0] >= 1 && Fields(cfg.benchmark)[3] >= 1 && Fields(cfg.benchmark)[4] >= 1;
      var regexes, skipped := CompileExcludePatterns(cfg.excludeMetrics, compiles);
      var writer: Writer.RemoteWriter? := null;
      if !dryRun {
        writer := new Writer.RemoteWriter(cfg.prometheus.remoteWriteUrl, cfg.benchmark.batchSize, parseFloat, now);
      }
      settings := cfg.benchmark;
      replication := cfg.replication;
      this.dryRun := dryRun;
      excludeRegexes := regexes;
      this.matches := matches;
      remoteWriter := writer;
      events := Skipped(skipped);
    }

    /** sendSamples: nothing for no values; otherwise the windows of `burst` values, each
        waited for at the limiter and then written. The first rate-limiting or write error
        ends it; a write error is the writer's own. */
    method SendSamples(ctx: Environment.Context, labels: map<string, string>, values: seq<Writer.RawPair>,
                       limiter: Environment.Limiter)
      returns (err: Option<SampleError>, ghost written: seq<seq<Writer.RawPair>>, ghost requests: seq<int>,
               ghost outcomes: Outcomes)
      requires Valid() && limiter.burst >= 1
      modifies ctx`cancelled, limiter, WriterRepr()
      ensures Valid()
      ensures old(ctx.cancelled) ==> ctx.cancelled
      ensures limiter.requests == old(limiter.requests) + requests
      ensures ChunkRun(values, limiter.burst, requests, written, outcomes, remoteWriter != null, err)
      ensures remoteWriter != null ==>
        && remoteWriter.writes == old(remoteWriter.writes) + Tagged(labels, written)
        && remoteWriter.results == old(remoteWriter.results) + outcomes
      ensures err.Some? && err.value.RateLimited? ==> ctx.cancelled
      ensures old(ctx.cancelled) && |values| >= 1 ==>
        err == Some(RateLimited(Environment.WaitCancelled)) && written == [] && outcomes == []
    {
      ghost var requests0 := limiter.requests;
      ghost var writes0 := if remoteWriter != null then remoteWriter.writes else [];
      ghost var results0 := if remoteWriter != null then remoteWriter.results else [];
      written, requests, outcomes := [], [], [];
      if |values| == 0 {
        return None, written, requests, outcomes;
      }

      var burstSize := limiter.burst;
      var totalSamples := |values|;
      ghost var writing := remoteWriter != null;
      var i := 0;
      err := None;
      while i < totalSamples
        invariant Valid() && err.None?
        invariant old(ctx.cancelled) ==> ctx.cancelled
        invariant Progress(values, burstSize, i, requests, written, outcomes, writing)
        invariant limiter.requests == requests0 + requests
        invariant writing ==> remoteWriter.writes == writes0 + Tagged(labels, written)
        invariant writing ==> remoteWriter.results == results0 + outcomes
        invariant old(ctx.cancelled) ==> i == 0 && written == [] && outcomes == []
      {
        var end := i + burstSize;
        if end > totalSamples {
          end := totalSamples;
        }
        assert end == Min(i + burstSize, |values|);
        var chunk := values[i..end];
        ChunkFits(values, burstSize, i, |requests|, chunk);
        ghost var wrote;
        err, wrote := SendChunk(ctx, labels, chunk, limiter, (i / burstSize) + 1);
        ghost var requestsA, writtenA, outcomesA := requests, written, outcomes;
        AppendAssoc(requests0, requests, [|chunk|]);
        requests := requests + [|chunk|];
        if wrote.Some? {
          TaggedSnoc(writes0, labels, written, chunk);
          AppendAssoc(results0, outcomes, [wrote.value]);
          written, outcomes := written + [chunk], outcomes + [wrote.value];
        }
        ChunkTurn(values, burstSize, i, requestsA, writtenA, outcomesA, writing, chunk, err, wrote,
                  requests, written, outcomes);
        if err.Some? {
          break;
        }
        i := i + burstSize;
      }
      if err.None? {
        ProgressDone(values, burstSize, i, requests, written, outcomes, writing);
      }
    }

    /** One turn of the sendSamples loop: wait for the chunk's tokens, then write it. `wrote`
        is the outcome of the write, absent when there is no writer or the wait failed. */
    method SendChunk(ctx: Environment.Context, labels: map<string, string>, chunk: seq<Writer.RawPair>,
                     limiter: Environment.Limiter, chunkNumber: nat)
      returns (err: Option<SampleError>, ghost wrote: Option<Outcome<Writer.WriteError>>)
      requires Valid() && 1 <= |chunk| <= limiter.burst
      modifies ctx`cancelled, limiter, WriterRepr()
      ensures Valid()
      ensures old(ctx.cancelled) ==> ctx.cancelled
      ensures limiter.requests == old(limiter.requests) + [|chunk|]
      ensures wrote.Some? <==> remoteWriter != null && !(err.Some? && err.value.RateLimited?)
      ensures remoteWriter != null && wrote.Some? ==>
        && remoteWriter.writes == old(remoteWriter.writes) + [(labels, chunk)]
        && remoteWriter.results == old(remoteWriter.results) + [wrote.value]
      ensures remoteWriter != null && wrote.None? ==>
        remoteWriter.writes == old(remoteWriter.writes) && remoteWriter.results == old(remoteWriter.results)
      ensures err.None? ==> wrote.None? || wrote.value.Pass?
      ensures wrote.Some? && wrote.value.Fail? ==> err == Some(ChunkWriteFailed(chunkNumber, wrote.value.error))
      ensures err.Some? && err.value.ChunkWriteFailed? ==> wrote == Some(Fail(err.value.cause))
      ensures err.Some? && err.value.ChunkWriteFailed? ==> err.value.chunk == chunkNumber
      ensures err.Some? && err.value.RateLimited? ==> err.value.wait == Environment.WaitCancelled && ctx.cancelled
      ensures old(ctx.cancelled) ==> err == Some(RateLimited(Environment.WaitCancelled)) && wrote.None?
    {
      wrote := None;
      var waitErr := limiter.WaitN(ctx, |chunk|);
      if waitErr.Some? {
        return Some(RateLimited(waitErr.value)), wrote;
      }
      err := None;
      if remoteWriter != null {
        var writeErr := remoteWriter.WriteSamples(labels, chunk);
        wrote := Some(writeErr);
        if writeErr.Fail? {
          err := Some(ChunkWriteFailed(chunkNumber, writeErr.error));
        }
      }
    }

    /** replicateSeries: one copy of the series per label combination (at most the replication
        factor), labelled with the series' labels overwritten by the combination's. A dry run
        logs each copy instead of sending it; otherwise the first copy whose samples fail to
        send ends it, after `used` complete copies and the chunks `partial` of the failed one.
        `outcomes` are the outcomes of its writes, and a write error is the last of them. */
    method ReplicateSeries(ctx: Environment.Context, metricName: string, series: RangeSeries,
                           limiter: Environment.Limiter)
      returns (err: Option<SampleError>, ghost used: nat, ghost partial: seq<seq<Writer.RawPair>>,
               ghost outcomes: Outcomes, ghost logged: seq<Event>)
      requires Valid() && limiter.burst >= 1
      modifies this`events, ctx`cancelled, limiter, WriterRepr()
      ensures Valid()
      ensures old(ctx.cancelled) ==> ctx.cancelled
      ensures events == old(events) + logged
      ensures Results() == old(Results()) + outcomes && OutcomesMatch(outcomes, err)
      ensures used <= |Copies()| && (err.None? ==> used == |Copies()| && partial == [])
      ensures dryRun ==>
        && err.None? && logged == DryRunEvents(metricName, series, Copies())
        && limiter.requests == old(limiter.requests) && outcomes == []
      ensures !dryRun ==> logged == [] && old(limiter.requests) <= limiter.requests
      ensures !dryRun && err.None? ==> Writes() == old(Writes()) + ReplicaWrites(series, Copies(), limiter.burst)
      ensures err.Some? ==>
        && !dryRun && used < |Copies()|
        && Writes() == old(Writes()) + ReplicaWrites(series, Copies()[..used], limiter.burst)
                                     + Tagged(series.metric + Copies()[used], partial)
        && partial <= Windows(series.values, limiter.burst)
      ensures err.Some? && err.value.RateLimited? ==>
        && err.value.wait == Environment.WaitCancelled && ctx.cancelled
        && |partial| < |Windows(series.values, limiter.burst)|
      ensures err.Some? && err.value.ChunkWriteFailed? ==> err.value.chunk == |partial| >= 1
      ensures |Results()| - |old(Results())| == |Writes()| - |old(Writes())|
      ensures !dryRun && old(ctx.cancelled) && |series.values| >= 1 ==>
        err == Some(RateLimited(Environment.WaitCancelled)) && used == 0 && partial == [] && outcomes == []
    {
      var combos := GenerateLabelCombinations(replication, settings.replicationFactor as nat);
      ghost var events0, writes0, results0 := events, Writes(), Results();
      partial, outcomes, logged := [], [], [];
      var i := 0;
      while i < |combos|
        invariant Valid() && events == events0 + logged
        invariant old(ctx.cancelled) ==> ctx.cancelled
        invariant dryRun ==> limiter.requests == old(limiter.requests) && outcomes == []
        invariant !dryRun ==> old(limiter.requests) <= limiter.requests
        invariant Results() == results0 + outcomes && AllPass(outcomes)
        invariant ReplicaProgress(dryRun, metricName, series, combos, limiter.burst, i, logged, writes0, Writes())
        invariant |Results()| - |results0| == |Writes()| - |writes0|
        invariant !dryRun && old(ctx.cancelled) && |series.values| >= 1 ==> i == 0 && outcomes == []
      {
        if i >= settings.replicationFactor {
          break;
        }
        ghost var writesA := Writes();
        var sendErr, written, more, moreLogged := ReplicateOnce(ctx, metricName, series, combos[i], limiter);
        AppendAssoc(results0, outcomes, more);
        if sendErr.Some? {
          OutcomesPrefix(outcomes, more, sendErr);
          return sendErr, i, written, outcomes + more, logged;
        }
        AllPassAppend(outcomes, more);
        outcomes := outcomes + more;
        ReplicaStep(dryRun, metricName, series, combos, limiter.burst, i, logged, moreLogged, writes0, writesA, Writes());
        AppendAssoc(events0, logged, moreLogged);
        logged := logged + moreLogged;
        i := i + 1;
      }
      assert combos[..i] == combos;
      err := None;
      used := i;
    }

    /** One turn of the replicateSeries loop: the copy of `series` labelled with `labelSet`
        over the series' own labels, logged in a dry run and sent otherwise. */
    method ReplicateOnce(ctx: Environment.Context, metricName: string, series: RangeSeries, labelSet: LabelSet,
                         limiter: Environment.Limiter)
      returns (err: Option<SampleError>, ghost written: seq<seq<Writer.RawPair>>, ghost outcomes: Outcomes,
               ghost logged: seq<Event>)
      requires Valid() && limiter.burst >= 1
      modifies this`events, ctx`cancelled, limiter, WriterRepr()
      ensures Valid()
      ensures old(ctx.cancelled) ==> ctx.cancelled
      ensures events == old(events) + logged
      ensures Results() == old(Results()) + outcomes && OutcomesMatch(outcomes, err)
      ensures dryRun ==>
        && err.None? && limiter.requests == old(limiter.requests) && outcomes == []
        && logged == [DryRun(metricName, series.metric + labelSet, |series.values|)]
      ensures !dryRun ==> logged == [] && old(limiter.requests) <= limiter.requests
      ensures !dryRun ==> Writes() == old(Writes()) + Tagged(series.metric + labelSet, written) && |outcomes| == |written|
      ensures !dryRun && err.None? ==> written == Windows(series.values, limiter.burst)
      ensures err.Some? ==> !dryRun && written <= Windows(series.values, limiter.burst)
      ensures err.Some? && err.value.RateLimited? ==>
        && err.value.wait == Environment.WaitCancelled && ctx.cancelled
        && |written| < |Windows(series.values, limiter.burst)|
      ensures err.Some? && err.value.ChunkWriteFailed? ==> err.value.chunk == |written| >= 1
      ensures !dryRun && old(ctx.cancelled) && |series.values| >= 1 ==>
        err == Some(RateLimited(Environment.WaitCancelled)) && written == [] && outcomes == []
    {
      var newLabels := MergeLabels(series.metric, labelSet);
      if dryRun {
        events := events + [DryRun(metricName, newLabels, |series.values|)];
        return None, [], [], [DryRun(metricName, newLabels, |series.values|)];
      }
      logged := [];
      ghost var requests: seq<int>;
      err, written, requests, outcomes := SendSamples(ctx, newLabels, series.values, limiter);
      if err.Some? {
        ChunkRunFailed(series.values, limiter.burst, requests, written, outcomes, err);
      }
    }

    /** processMetric: query the metric's range. A failed query is reported and changes
        nothing; an empty result logs that there is no data; otherwise every series of the
        result is replicated in turn, and a series that fails is logged and skipped. */
    method ProcessMetric(ctx: Environment.Context, metricName: string, limiter: Environment.Limiter)
      returns (err: Option<QueryFailure>, ghost result: seq<RangeSeries>, ghost attempts: seq<Attempt>,
               ghost logged: seq<Event>)
      requires Valid() && limiter.burst >= 1
      modifies this`events, ctx`cancelled, limiter, WriterRepr()
      ensures Valid()
      ensures old(ctx.cancelled) ==> ctx.cancelled
      ensures events == old(events) + logged
      ensures old(limiter.requests) <= limiter.requests
      ensures dryRun ==> limiter.requests == old(limiter.requests)
      ensures err.Some? || result == [] ==>
        && attempts == []
        && limiter.requests == old(limiter.requests) && Writes() == old(Writes()) && Results() == old(Results())
      ensures err.Some? ==> result == [] && logged == []
      ensures err.None? && result == [] ==> logged == [NoData(metricName)]
      ensures result != [] ==>
        && SeriesLoop(dryRun, metricName, Copies(), limiter.burst, result, attempts, ctx.cancelled, logged,
                      old(Writes()), Writes(), old(Results()), Results())
        && CancelHalts(dryRun, old(ctx.cancelled), result, attempts)
    {
      logged, attempts := [], [];
      var data := QueryMetricRange(metricName);
      if data.Failure? {
        return Some(data.error), [], attempts, logged;
      }
      var allSeries := data.value;
      result := allSeries;
      err := None;
      if |allSeries| == 0 {
        events := events + [NoData(metricName)];
        logged := [NoData(metricName)];
        return;
      }
      attempts, logged := ReplicateAll(ctx, metricName, allSeries, limiter);
    }

    /** The series loop of processMetric: every series of the result is replicated in turn,
        and a series that fails is logged and skipped. */
    method ReplicateAll(ctx: Environment.Context, metricName: string, allSeries: seq<RangeSeries>,
                        limiter: Environment.Limiter)
      returns (ghost attempts: seq<Attempt>, ghost logged: seq<Event>)
      requires Valid() && limiter.burst >= 1
      modifies this`events, ctx`cancelled, limiter, WriterRepr()
      ensures Valid()
      ensures old(ctx.cancelled) ==> ctx.cancelled
      ensures events == old(events) + logged
      ensures old(limiter.requests) <= limiter.requests
      ensures dryRun ==> limiter.requests == old(limiter.requests)
      ensures SeriesLoop(dryRun, metricName, Copies(), limiter.burst, allSeries, attempts, ctx.cancelled, logged,
                         old(Writes()), Writes(), old(Results()), Results())
      ensures CancelHalts(dryRun, old(ctx.cancelled), allSeries, attempts)
    {
      attempts, logged := [], [];
      ghost var copies, writes0, results0 := Copies(), Writes(), Results();
      var j := 0;
      while j < |allSeries|
        invariant j <= |allSeries| && Valid()
        invariant old(ctx.cancelled) ==> ctx.cancelled
        invariant old(limiter.requests) <= limiter.requests
        invariant dryRun ==> limiter.requests == old(limiter.requests)
        invariant events == old(events) + logged
        invariant SeriesLoop(dryRun, metricName, copies, limiter.burst, allSeries[..j], attempts, ctx.cancelled, logged,
                             writes0, Writes(), results0, Results())
        invariant CancelHalts(dryRun, old(ctx.cancelled), allSeries[..j], attempts)
      {
        ghost var writesA, resultsA, cancelledA := Writes(), Results(), ctx.cancelled;
        ghost var a, more := ReplicateLogged(ctx, metricName, allSeries[j], limiter);
        CancelHaltsStep(dryRun, old(ctx.cancelled), copies, limiter.burst, allSeries[..j], attempts, allSeries[j], a,
                        cancelledA);
        SeriesLoopStep(dryRun, metricName, copies, limiter.burst, allSeries[..j], attempts, allSeries[j], a,
                       cancelledA, ctx.cancelled, logged, more, writes0, writesA, Writes(), results0, resultsA, Results());
        TakeSnoc(allSeries, j);
        AppendAssoc(old(events), logged, more);
        attempts, logged := attempts + [a], logged + more;
        j := j + 1;
      }
      assert allSeries[..j] == allSeries;
    }

    /** One turn of the processMetric loop: replicate one series; its failure is logged and
        the loop goes on with the next series. */
    method ReplicateLogged(ctx: Environment.Context, metricName: string, series: RangeSeries,
                           limiter: Environment.Limiter)
      returns (ghost attempt: Attempt, ghost logged: seq<Event>)
      requires Valid() && limiter.burst >= 1
      modifies this`events, ctx`cancelled, limiter, WriterRepr()
      ensures Valid()
      ensures old(ctx.cancelled) ==> ctx.cancelled
      ensures old(limiter.requests) <= limiter.requests
      ensures dryRun ==> limiter.requests == old(limiter.requests)
      ensures events == old(events) + logged
      ensures SeriesOutcome(dryRun, metricName, Copies(), limiter.burst, series, attempt, ctx.cancelled, logged,
                            old(Writes()), Writes(), old(Results()), Results())
      ensures !dryRun && old(ctx.cancelled) && |series.values| >= 1 ==> attempt == Halted
    {
      var err, used, partial, outcomes, replicated := ReplicateSeries(ctx, metricName, series, limiter);
      attempt := Attempt(err, used, partial, outcomes);
      assert AttemptOk(attempt, series, Copies(), limiter.burst, ctx.cancelled);
      logged := replicated;
      if err.Some? {
        AppendAssoc(old(Writes()), ReplicaWrites(series, Copies()[..used], limiter.burst),
                    Tagged(series.metric + Copies()[used], partial));
        events := events + [SeriesFailed(metricName, err.value)];
        logged := [SeriesFailed(metricName, err.value)];
      } else if !dryRun {
        assert AttemptWrites(series, Copies(), limiter.burst, attempt) == ReplicaWrites(series, Copies(), limiter.burst);
      }
    }

    /** One turn of the processMetrics loop: a look at the run's cancellation, which ends the
        run when it has fired; otherwise log that the metric is being processed, process it,
        and log its failure, if any, and the loop goes on with the next metric. */
    method ProcessLogged(ctx: Environment.Context, metricName: string, limiter: Environment.Limiter)
      returns (stop: bool, ghost turn: Turn)
      requires Valid() && limiter.burst >= 1
      modifies this`events, ctx, limiter, WriterRepr()
      ensures Valid()
      ensures ctx.checks == old(ctx.checks) + [stop]
      ensures old(ctx.cancelled) ==> ctx.cancelled && stop
      ensures dryRun ==> limiter.requests == old(limiter.requests)
      ensures stop ==> ctx.cancelled && events == old(events) && Writes() == old(Writes()) && Results() == old(Results())
      ensures !stop ==> TurnDone(dryRun, Copies(), limiter.burst, metricName, turn, ctx.cancelled,
                                 old(events), events, old(Writes()), Writes(), old(Results()), Results())
    {
      turn := Turn(metricName, None, [], []);
      stop := ctx.Done();
      if stop {
        return;
      }
      events := events + [Processing(metricName)];
      var err, result, attempts, logged := ProcessMetric(ctx, metricName, limiter);
      turn := Turn(metricName, err, result, attempts);
      AppendAssoc(old(events), [Processing(metricName)], logged);
      if err.Some? {
        events := events + [MetricFailed(metricName, err.value)];
      }
    }

    /** processMetrics: one rate limiter of `samplesPerSecond` tokens per second and a burst of
        twice that for the whole run; before each metric the run's cancellation is checked and
        ends the run, otherwise the metric is processed and a failure is logged and skipped.
        The turns are those of a prefix of `metrics`, all of them unless cancelled. */
    method ProcessMetrics(ctx: Environment.Context, metrics: seq<string>)
      returns (err: Option<RunError>, ghost turns: seq<Turn>, ghost limiter: Environment.Limiter)
      requires Valid()
      modifies this`events, ctx, WriterRepr()
      ensures Valid()
      ensures fresh(limiter) && limiter.limit == settings.samplesPerSecond && limiter.burst == 2 * settings.samplesPerSecond
      ensures dryRun ==> limiter.requests == []
      ensures TurnLoop(dryRun, Copies(), limiter.burst, metrics, turns, ctx.cancelled,
                       old(events), events, old(Writes()), Writes(), old(Results()), Results())
      ensures err.None? ==> |turns| == |metrics|
      ensures err.Some? ==> err.value == Cancelled && ctx.cancelled && |turns| < |metrics|
      ensures ctx.checks == old(ctx.checks) + DoneChecks(|turns|, err.Some?)
      ensures old(ctx.cancelled) && |metrics| > 0 ==> err == Some(Cancelled) && turns == []
    {
      var samplesPerSecond := settings.samplesPerSecond;
      var burstCapacity := samplesPerSecond * 2;
      var rateLimiter := new Environment.Limiter(samplesPerSecond, burstCapacity);
      limiter := rateLimiter;
      ghost var copies, events0, writes0, results0, checks0 := Copies(), events, Writes(), Results(), ctx.checks;
      turns := [];
      err := None;
      var i := 0;
      while i < |metrics|
        invariant i == |turns| <= |metrics| && Valid() && fresh(rateLimiter)
        invariant rateLimiter.limit == samplesPerSecond && rateLimiter.burst == burstCapacity
        invariant dryRun ==> rateLimiter.requests == []
        invariant ctx.checks == checks0 + DoneChecks(i, false)
        invariant i == 0 ==> ctx.cancelled == old(ctx.cancelled)
        invariant i > 0 ==> !old(ctx.cancelled)
        invariant TurnLoop(dryRun, copies, burstCapacity, metrics, turns, ctx.cancelled,
                           events0, events, writes0, Writes(), results0, Results())
      {
        ghost var cancelledA, eventsA, writesA, resultsA := ctx.cancelled, events, Writes(), Results();
        var metricName := metrics[i];
        var done, turn := ProcessLogged(ctx, metricName, rateLimiter);
        DoneChecksSnoc(checks0, i, done);
        if done {
          err := Some(Cancelled);
          break;
        }
        TurnLoopStep(dryRun, copies, burstCapacity, metrics, turns, turn, cancelledA, ctx.cancelled,
                     events0, eventsA, events, writes0, writesA, Writes(), results0, resultsA, Results());
        turns := turns + [turn];
        i := i + 1;
      }
    }

    /** Run: discover the metric names, keep those no exclusion pattern matches and process
        them. A failed discovery ends the run before anything is logged, checked or written. */
    method Run(ctx: Environment.Context) returns (err: Option<RunError>, ghost discovered: seq<string>, ghost turns: seq<Turn>)
      requires Valid()
      modifies this`events, ctx, WriterRepr()
      ensures Valid()
      ensures err.Some? && err.value.DiscoveryFailed? ==>
        && turns == [] && events == old(events) && ctx.checks == old(ctx.checks)
        && Writes() == old(Writes()) && Results() == old(Results())
      ensures !(err.Some? && err.value.DiscoveryFailed?) ==>
        var kept := Filter(discovered, Kept(excludeRegexes, matches));
        var burst := 2 * settings.samplesPerSecond;
        && |turns| <= |kept| && Metrics(turns) == kept[..|turns|]
        && Visited(events) == Visited(old(events)) + kept[..|turns|]
        && (err.None? ==> |turns| == |kept|)
        && (err.Some? ==> err.value == Cancelled && ctx.cancelled)
        && ctx.checks == old(ctx.checks) + DoneChecks(|turns|, err.Some?)
        && (forall k :: 0 <= k < |turns| ==> TurnOk(dryRun, Copies(), burst, turns[k], ctx.cancelled))
        && events == old(events) + AllTurnEvents(dryRun, Copies(), turns)
        && Writes() == old(Writes()) + AllTurnWrites(dryRun, Copies(), burst, turns)
        && Results() == old(Results()) + AllTurnOutcomes(dryRun, turns)
        && |Results()| - |old(Results())| == |Writes()| - |old(Writes())|
    {
      var found := DiscoverMetrics();
      if found.Failure? {
        return Some(DiscoveryFailed(found.error)), [], [];
      }
      var metrics := found.value;
      discovered := metrics;
      var filtered := FilterMetrics(metrics, excludeRegexes, matches);
      ghost var limiter;
      err, turns, limiter := ProcessMetrics(ctx, filtered);
      VisitedAppend(old(events), AllTurnEvents(dryRun, Copies(), turns));
      VisitedTurns(dryRun, Copies(), turns);
      TurnCounts(dryRun, Copies(), limiter.burst, turns, ctx.cancelled);
    }
  }
}
