/** The remote-write client (internal/writer/remote_writer.go): the timestamp coordinator,
    conversion of raw query values into a series, and sending series in batches. Protobuf
    encoding, snappy compression and the HTTP exchange are not modelled: a POST is an
    exchange with the network that answers with any response. */
module Writer {
  import opened Wrappers
  import opened Arith
  import opened Seqs
  import Environment

  // ---------------------------------------------------------------- timestamps

  /** The timestamp after `last` given a clock reading `now`: the reading when it is later,
      otherwise one millisecond after `last`. */
  function Advance(last: int, now: int): (next: int)
    ensures next > last && next >= now
    ensures next == now || next == last + 1
  {
    if now > last then now else last + 1
  }

  /** The values returned by successive NextTimestamp calls that start from `last` and see
      the clock readings `clock`, in order. */
  function Timeline(last: int, clock: seq<int>): seq<int>
    decreases |clock|
  {
    if clock == [] then []
    else var next := Advance(last, clock[0]); [next] + Timeline(next, clock[1..])
  }

  /** Whatever the clock does, the returned timestamps strictly increase and all lie after
      the starting value; there is one per call. */
  lemma {:induction false} TimelineIncreasing(last: int, clock: seq<int>)
    ensures |Timeline(last, clock)| == |clock|
    ensures StrictlyIncreasing(Timeline(last, clock))
    ensures forall t :: t in Timeline(last, clock) ==> t > last
    decreases |clock|
  {
    if clock != [] {
      var next := Advance(last, clock[0]);
      TimelineIncreasing(next, clock[1..]);
      var rest := Timeline(next, clock[1..]);
      assert Timeline(last, clock) == [next] + rest;
      forall i, j | 0 <= i < j < |clock| ensures Timeline(last, clock)[i] < Timeline(last, clock)[j] {
        if i > 0 {
          assert Timeline(last, clock)[i] == rest[i - 1];
        }
        assert Timeline(last, clock)[j] == rest[j - 1];
        assert rest[j - 1] in rest;
      }
    }
  }

  /** Hands out strictly increasing millisecond timestamps. `issued` records every value
      handed out so far. */
  class TimestampCoordinator {
    var lastTimestamp: int
    const increment: int
    ghost var issued: seq<int>

    ghost predicate Valid()
      reads this
    {
      increment == 1 && StrictlyIncreasing(issued) && forall t :: t in issued ==> t <= lastTimestamp
    }

    /** Go's NewTimestampCoordinator, given the clock reading at construction. */
    constructor (now: int)
      ensures Valid() && lastTimestamp == now && issued == []
    {
      lastTimestamp := now;
      increment := 1;
      issued := [];
    }

    /** The next timestamp, given the clock reading `now`: `max(now, last + 1)`, which is
        later than every timestamp handed out before. */
    method NextTimestamp(now: int) returns (ts: int)
      requires Valid()
      modifies this
      ensures Valid()
      ensures ts == Advance(old(lastTimestamp), now)
      ensures lastTimestamp == ts && issued == old(issued) + [ts]
      ensures forall t :: t in old(issued) ==> t < ts
    {
      if now > lastTimestamp {
        lastTimestamp := now;
      } else {
        lastTimestamp := lastTimestamp + increment;
      }
      IncreasingSnoc(issued, lastTimestamp);
      issued := issued + [lastTimestamp];
      ts := lastTimestamp;
    }
  }

  // ---------------------------------------------------------------- series

  /** An IEEE 754 double, kept as its bits; the model never computes with it. */
  datatype Float64 = Float64(bits: bv64)

  /** One element of a JSON array as Go decodes it into `interface{}`. */
  datatype RawValue = JsonString(s: string) | JsonNumber(x: Float64) | JsonOther

  /** One `[timestamp, "value"]` pair of a range-query result, of any length. */
  type RawPair = seq<RawValue>

  datatype Label = Label(name: string, value: string)
  datatype Sample = Sample(timestamp: int, value: Float64)
  datatype TimeSeries = TimeSeries(labels: seq<Label>, samples: seq<Sample>)

  /** A pair is converted when it has two elements and the second is text that ParseFloat
      accepts; `parseFloat` stands for strconv.ParseFloat with bit size 64. */
  predicate Accepts(pair: RawPair, parseFloat: string -> Option<Float64>)
  {
    |pair| == 2 && pair[1].JsonString? && parseFloat(pair[1].s).Some?
  }

  /** The values of the accepted pairs, in input order. */
  function AcceptedValues(values: seq<RawPair>, parseFloat: string -> Option<Float64>): (r: seq<Float64>)
    ensures |r| <= |values|
  {
    if values == [] then []
    else
      var last := values[|values| - 1];
      AcceptedValues(values[..|values| - 1], parseFloat)
        + if Accepts(last, parseFloat) then [parseFloat(last[1].s).value] else []
  }

  lemma AcceptedValuesSnoc(values: seq<RawPair>, pair: RawPair, parseFloat: string -> Option<Float64>)
    ensures AcceptedValues(values + [pair], parseFloat) == AcceptedValues(values, parseFloat)
      + if Accepts(pair, parseFloat) then [parseFloat(pair[1].s).value] else []
  {
    assert (values + [pair])[..|values|] == values;
  }

  /** No pair is accepted exactly when every pair is rejected. */
  lemma {:induction false} NoneAccepted(values: seq<RawPair>, parseFloat: string -> Option<Float64>)
    ensures AcceptedValues(values, parseFloat) == [] <==>
      forall i :: 0 <= i < |values| ==> !Accepts(values[i], parseFloat)
  {
    if values != [] {
      var init := values[..|values| - 1];
      NoneAccepted(init, parseFloat);
      assert forall i :: 0 <= i < |init| ==> init[i] == values[i];
    }
  }

  function Timestamps(samples: seq<Sample>): (r: seq<int>)
    ensures |r| == |samples| && forall i :: 0 <= i < |samples| ==> r[i] == samples[i].timestamp
  {
    seq(|samples|, i requires 0 <= i < |samples| => samples[i].timestamp)
  }

  function SampleValues(samples: seq<Sample>): (r: seq<Float64>)
    ensures |r| == |samples| && forall i :: 0 <= i < |samples| ==> r[i] == samples[i].value
  {
    seq(|samples|, i requires 0 <= i < |samples| => samples[i].value)
  }

  lemma SamplesSnoc(samples: seq<Sample>, x: Sample)
    ensures Timestamps(samples + [x]) == Timestamps(samples) + [x.timestamp]
    ensures SampleValues(samples + [x]) == SampleValues(samples) + [x.value]
  {
  }

  /** `pairs` holds one label pair per entry of `labels`, in some order. */
  ghost predicate LabelPairsOf(pairs: seq<Label>, labels: map<string, string>)
  {
    && |pairs| == |labels|
    && (forall k :: k in labels ==> Label(k, labels[k]) in pairs)
    && (forall l :: l in pairs ==> l.name in labels && labels[l.name] == l.value)
  }

  /** The label pairs of a map, in the map's iteration order (which Go leaves unspecified). */
  method LabelPairs(labels: map<string, string>) returns (pairs: seq<Label>)
    ensures LabelPairsOf(pairs, labels)
  {
    pairs := [];
    var keys := labels.Keys;
    while keys != {}
      invariant keys <= labels.Keys
      invariant |pairs| + |keys| == |labels|
      invariant forall k :: k in labels && k !in keys ==> Label(k, labels[k]) in pairs
      invariant forall l :: l in pairs ==> l.name in labels && l.name !in keys && labels[l.name] == l.value
      decreases keys
    {
      var name :| name in keys;
      pairs := pairs + [Label(name, labels[name])];
      keys := keys - {name};
    }
  }

  datatype ConversionError = NoValuesProvided | NoValidSamples

  // ---------------------------------------------------------------- sending

  /** What the network answers to one remote-write POST. Failures to encode, to build the
      request or to reach the server are all `TransportFailure`. */
  datatype Response = TransportFailure | HttpStatus(code: int)

  datatype SendError = RequestFailed | StatusNotOk(code: int)

  /** The status check of sendBatch: only a 2xx status is success. */
  function Classify(resp: Response): (r: Option<SendError>)
    ensures r == None <==> resp.HttpStatus? && 200 <= resp.code < 300
    ensures r.Some? && resp.HttpStatus? ==> r == Some(StatusNotOk(resp.code))
  {
    match resp
    case TransportFailure => Some(RequestFailed)
    case HttpStatus(code) => if code < 200 || code >= 300 then Some(StatusNotOk(code)) else None
  }

  datatype WriteError = ConversionFailed(reason: ConversionError) | BatchFailed(start: nat, end: nat, cause: SendError)

  /** One POST made so far: the batch it carried and the answer. */
  datatype Post = Post(batch: seq<TimeSeries>, response: Response)

  /** The batch of a POST reached the server and was accepted. */
  predicate Delivered(p: Post)
  {
    Classify(p.response) == None
  }

  /** What sendInBatches did, given the POSTs `sent` it made and its outcome `o`: it sent the
      windows of `series` in order, it stopped at the first batch that was not delivered and
      reported that batch's index range, and it reports success only when every window was
      delivered. */
  ghost predicate BatchRun(series: seq<TimeSeries>, size: nat, sent: seq<Post>, o: Outcome<WriteError>)
    requires size >= 1
  {
    && |sent| <= |Windows(series, size)|
    && Batches(sent) == Windows(series, size)[..|sent|]
    && (forall j :: 0 <= j < |sent| - 1 ==> Delivered(sent[j]))
    && (o.Pass? ==> |sent| == |Windows(series, size)| && forall j :: 0 <= j < |sent| ==> Delivered(sent[j]))
    && (o.Fail? ==> && |sent| >= 1
                    && !Delivered(sent[|sent| - 1])
                    && o.error == BatchFailed((|sent| - 1) * size,
                                              Min((|sent| - 1) * size + size, |series|),
                                              Classify(sent[|sent| - 1].response).value))
  }

  /** The loop state of sendInBatches after the POSTs `sent`, with `i` the start of the
      next batch: the POSTs carried the first windows of `series`, and all were delivered. */
  ghost predicate BatchProgress(series: seq<TimeSeries>, size: nat, i: nat, sent: seq<Post>)
    requires size >= 1
  {
    var W := Windows(series, size);
    && i == |sent| * size && |sent| <= |W|
    && W[|sent|..] == Windows(series[Min(i, |series|)..], size)
    && Batches(sent) == W[..|sent|]
    && forall j :: 0 <= j < |sent| ==> Delivered(sent[j])
  }

  /** One turn of the loop: the POST of `series[i..min(i + size, n)]` either is delivered and
      advances the state, or ends the run with that range. */
  lemma BatchStep(series: seq<TimeSeries>, size: nat, i: nat, sent: seq<Post>, post: Post)
    requires size >= 1 && i < |series| && BatchProgress(series, size, i, sent)
    requires post.batch == series[i..Min(i + size, |series|)]
    ensures Delivered(post) ==> BatchProgress(series, size, i + size, sent + [post])
    ensures !Delivered(post) ==>
      BatchRun(series, size, sent + [post], Fail(BatchFailed(i, Min(i + size, |series|), Classify(post.response).value)))
  {
    var W := Windows(series, size);
    var k := |sent|;
    WindowsNext(series, size, i, W, k);
    TakeSnoc(W, k);
    MulSucc(k, size);
    var sent' := sent + [post];
    assert Batches(sent') == Batches(sent) + [post.batch];
    assert sent'[k] == post;
    assert forall j :: 0 <= j < k ==> sent'[j] == sent[j];
  }

  /** The loop ran out of series: every window was delivered. */
  lemma BatchesDone(series: seq<TimeSeries>, size: nat, i: nat, sent: seq<Post>)
    requires size >= 1 && i >= |series| && BatchProgress(series, size, i, sent)
    ensures BatchRun(series, size, sent, Pass)
  {
    var W := Windows(series, size);
    assert series[Min(i, |series|)..] == [];
    assert W[..|sent|] == W;
  }

  function Batches(posts: seq<Post>): (r: seq<seq<TimeSeries>>)
    ensures |r| == |posts| && forall j :: 0 <= j < |posts| ==> r[j] == posts[j].batch
  {
    seq(|posts|, j requires 0 <= j < |posts| => posts[j].batch)
  }

  /** The network: any answer to any POST. */
  method PostRemoteWrite(endpoint: string, batch: seq<TimeSeries>) returns (resp: Response)
  {
    resp :| true;
  }

  class RemoteWriter {
    const endpoint: string
    const batchSize: int
    const coordinator: TimestampCoordinator
    const parseFloat: string -> Option<Float64>
    /** Every POST made so far. */
    var posts: seq<Post>
    /** Every WriteSamples call so far: its labels and raw values. */
    ghost var writes: seq<(map<string, string>, seq<RawPair>)>
    /** The outcome of every WriteSamples call so far, in the same order. */
    ghost var results: seq<Outcome<WriteError>>

    /** Go's NewRemoteWriter, given the clock reading that starts its coordinator. */
    constructor (endpoint: string, batchSize: int, parseFloat: string -> Option<Float64>, now: int)
      ensures this.endpoint == endpoint && this.batchSize == batchSize && this.parseFloat == parseFloat
      ensures fresh(coordinator) && coordinator.Valid() && coordinator.lastTimestamp == now && coordinator.issued == []
      ensures posts == [] && writes == [] && results == []
    {
      this.endpoint := endpoint;
      this.batchSize := batchSize;
      this.parseFloat := parseFloat;
      coordinator := new TimestampCoordinator(now);
      posts := [];
      writes := [];
      results := [];
    }

    /** Turn a label map and raw pairs into one series. Each accepted pair gets a fresh
        coordinator timestamp; rejected pairs are dropped and draw none. */
    method ConvertToTimeSeries(labels: map<string, string>, values: seq<RawPair>)
      returns (r: Result<TimeSeries, ConversionError>)
      requires coordinator.Valid()
      modifies coordinator
      ensures coordinator.Valid()
      ensures old(coordinator.issued) <= coordinator.issued
      ensures |values| == 0 ==> r == Failure(NoValuesProvided)
      ensures |values| > 0 && AcceptedValues(values, parseFloat) == [] ==> r == Failure(NoValidSamples)
      ensures r.Failure? ==> coordinator.issued == old(coordinator.issued)
      ensures r.Success? <==> |values| > 0 && AcceptedValues(values, parseFloat) != []
      ensures r.Success? ==> && SampleValues(r.value.samples) == AcceptedValues(values, parseFloat)
                             && coordinator.issued == old(coordinator.issued) + Timestamps(r.value.samples)
                             && StrictlyIncreasing(Timestamps(r.value.samples))
                             && LabelPairsOf(r.value.labels, labels)
    {
      var labelPairs := LabelPairs(labels);

      if |values| == 0 {
        return Failure(NoValuesProvided);
      }

      var samples := StampSamples(values);
      if |samples| == 0 {
        return Failure(NoValidSamples);
      }
      return Success(TimeSeries(labelPairs, samples));
    }

    /** The conversion loop of convertToTimeSeries: one sample per accepted pair, in order,
        each stamped by the coordinator. */
    method StampSamples(values: seq<RawPair>) returns (samples: seq<Sample>)
      requires coordinator.Valid()
      modifies coordinator
      ensures coordinator.Valid()
      ensures SampleValues(samples) == AcceptedValues(values, parseFloat)
      ensures coordinator.issued == old(coordinator.issued) + Timestamps(samples)
      ensures StrictlyIncreasing(Timestamps(samples))
    {
      samples := [];
      var i := 0;
      while i < |values|
        invariant 0 <= i <= |values|
        invariant coordinator.Valid()
        invariant SampleValues(samples) == AcceptedValues(values[..i], parseFloat)
        invariant coordinator.issued == old(coordinator.issued) + Timestamps(samples)
      {
        var value := values[i];
        AcceptedValuesSnoc(values[..i], value, parseFloat);
        assert values[..i + 1] == values[..i] + [value];
        i := i + 1;
        if |value| != 2 {
          continue;
        }
        if !value[1].JsonString? {
          continue;
        }
        var parsed := parseFloat(value[1].s);
        if parsed.None? {
          continue;
        }
        var now := Environment.NowMillis();
        var timestamp := coordinator.NextTimestamp(now);
        SamplesSnoc(samples, Sample(timestamp, parsed.value));
        AppendAssoc(old(coordinator.issued), Timestamps(samples), [timestamp]);
        samples := samples + [Sample(timestamp, parsed.value)];
      }
      assert values[..i] == values;
      IncreasingSuffix(old(coordinator.issued), Timestamps(samples));
    }

    /** One POST of one batch; a non-2xx status or a failed exchange is an error. */
    method SendBatch(batch: seq<TimeSeries>) returns (err: Option<SendError>, ghost post: Post)
      modifies this`posts
      ensures posts == old(posts) + [post] && post.batch == batch
      ensures err == Classify(post.response)
    {
      var resp := PostRemoteWrite(endpoint, batch);
      posts := posts + [Post(batch, resp)];
      post := Post(batch, resp);
      err := Classify(resp);
    }

    /** POST the windows `[i, min(i + batchSize, n))` of `series` in order. The first failing
        batch ends the loop and is reported with its range; earlier batches stay sent. */
    method SendInBatches(series: seq<TimeSeries>) returns (o: Outcome<WriteError>)
      requires batchSize >= 1
      modifies this`posts
      ensures old(posts) <= posts
      ensures BatchRun(series, batchSize, posts[|old(posts)|..], o)
    {
      ghost var sent: seq<Post> := [];
      var i := 0;
      while i < |series|
        invariant posts == old(posts) + sent
        invariant BatchProgress(series, batchSize, i, sent)
      {
        var end := i + batchSize;
        if end > |series| {
          end := |series|;
        }
        assert end == Min(i + batchSize, |series|);
        var batch := series[i..end];
        var err, post := SendBatch(batch);
        BatchStep(series, batchSize, i, sent, post);
        AppendAssoc(old(posts), sent, [post]);
        sent := sent + [post];
        if err.Some? {
          DropPrefix(old(posts), sent);
          return Fail(BatchFailed(i, end, err.value));
        }
        i := i + batchSize;
      }
      DropPrefix(old(posts), sent);
      BatchesDone(series, batchSize, i, sent);
      o := Pass;
    }

    /** Convert one series and send it. */
    method WriteSamples(labels: map<string, string>, values: seq<RawPair>) returns (o: Outcome<WriteError>)
      requires batchSize >= 1 && coordinator.Valid()
      modifies this`posts, this`writes, this`results, coordinator
      ensures coordinator.Valid() && old(coordinator.issued) <= coordinator.issued
      ensures writes == old(writes) + [(labels, values)] && results == old(results) + [o]
      ensures old(posts) <= posts && |posts| <= |old(posts)| + 1
      ensures |values| == 0 ==> o == Fail(ConversionFailed(NoValuesProvided))
      ensures |values| > 0 && AcceptedValues(values, parseFloat) == [] ==> o == Fail(ConversionFailed(NoValidSamples))
      ensures o.Fail? && o.error.ConversionFailed? ==> posts == old(posts) && coordinator.issued == old(coordinator.issued)
      ensures |values| > 0 && AcceptedValues(values, parseFloat) != [] ==>
        && |posts| == |old(posts)| + 1
        && var p := posts[|old(posts)|];
           && |p.batch| == 1
           && SampleValues(p.batch[0].samples) == AcceptedValues(values, parseFloat)
           && coordinator.issued == old(coordinator.issued) + Timestamps(p.batch[0].samples)
           && LabelPairsOf(p.batch[0].labels, labels)
           && (o.Pass? <==> Delivered(p))
           && (o.Fail? ==> o.error == BatchFailed(0, 1, Classify(p.response).value))
    {
      writes := writes + [(labels, values)];
      var r := ConvertToTimeSeries(labels, values);
      if r.Failure? {
        o := Fail(ConversionFailed(r.error));
      } else {
        assert Windows([r.value], batchSize) == [[r.value]];
        o := SendInBatches([r.value]);
      }
      results := results + [o];
    }

    /** Send already converted series. */
    method WriteBatch(series: seq<TimeSeries>) returns (o: Outcome<WriteError>)
      requires batchSize >= 1
      modifies this`posts
      ensures old(posts) <= posts
      ensures BatchRun(series, batchSize, posts[|old(posts)|..], o)
    {
      o := SendInBatches(series);
    }
  }
}
