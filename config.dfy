/** The configuration record, its defaults and its validation (internal/config/config.go).
    Reading and parsing the YAML file is not part of this model. */
module Config {
  import opened Wrappers

  datatype Prometheus = Prometheus(queryUrl: string, remoteWriteUrl: string)

  datatype Benchmark = Benchmark(
    replicationFactor: int,
    queryRangeHours: int,
    queryStepSeconds: int,
    samplesPerSecond: int,
    batchSize: int)

  /** One `replication_labels` entry: a label name and its candidate values. */
  datatype ReplicationLabel = ReplicationLabel(name: string, values: seq<string>)

  /** The five benchmark integers, in the order Validate checks them. */
  function Fields(b: Benchmark): (r: seq<int>)
    ensures |r| == 5
  {
    [b.replicationFactor, b.queryRangeHours, b.queryStepSeconds, b.samplesPerSecond, b.batchSize]
  }

  /** The YAML keys of the five fields, in the same order. */
  const FieldNames: seq<string> :=
    ["replication_factor", "query_range_hours", "query_step_seconds", "samples_per_second", "batch_size"]

  /** Their defaults, in the same order. */
  const FieldDefaults: seq<int> := [2, 24, 60, 1000, 100]

  const DefaultQueryUrl: string := "http://localhost:9090"
  const DefaultRemoteWriteUrl: string := "http://localhost:9090/api/v1/write"

  /** The benchmark record as setDefaults leaves it. */
  function BenchmarkWithDefaults(b: Benchmark): (r: Benchmark)
    ensures forall j :: 0 <= j < 5 ==>
      Fields(r)[j] == if Fields(b)[j] == 0 then FieldDefaults[j] else Fields(b)[j]
  {
    Benchmark(
      if b.replicationFactor == 0 then 2 else b.replicationFactor,
      if b.queryRangeHours == 0 then 24 else b.queryRangeHours,
      if b.queryStepSeconds == 0 then 60 else b.queryStepSeconds,
      if b.samplesPerSecond == 0 then 1000 else b.samplesPerSecond,
      if b.batchSize == 0 then 100 else b.batchSize)
  }

  /** The connection settings as setDefaults leaves them. */
  function PrometheusWithDefaults(p: Prometheus): (r: Prometheus)
    ensures r.queryUrl == (if p.queryUrl == "" then DefaultQueryUrl else p.queryUrl)
    ensures r.remoteWriteUrl == (if p.remoteWriteUrl == "" then DefaultRemoteWriteUrl else p.remoteWriteUrl)
    ensures r.queryUrl != "" && r.remoteWriteUrl != ""
  {
    Prometheus(
      if p.queryUrl == "" then DefaultQueryUrl else p.queryUrl,
      if p.remoteWriteUrl == "" then DefaultRemoteWriteUrl else p.remoteWriteUrl)
  }

  datatype ValidationError = MustBeAtLeastOne(field: string)
  {
    function Message(): string { field + " must be at least 1" }
  }

  /** Go's `(*Config).Validate`, which reads only the benchmark record: the first field below 1,
      in the order of FieldNames, is reported. */
  function Validate(b: Benchmark): (r: Outcome<ValidationError>)
    ensures r.Pass? <==> forall j :: 0 <= j < 5 ==> Fields(b)[j] >= 1
    ensures r.Fail? ==> exists j :: (0 <= j < 5 && r.error == MustBeAtLeastOne(FieldNames[j])
      && Fields(b)[j] < 1 && forall i :: 0 <= i < j ==> Fields(b)[i] >= 1)
  {
    var f := Fields(b);
    if b.replicationFactor < 1 then
      assert f[0] < 1 && FieldNames[0] == "replication_factor";
      Fail(MustBeAtLeastOne("replication_factor"))
    else if b.queryRangeHours < 1 then
      assert f[1] < 1 && FieldNames[1] == "query_range_hours";
      Fail(MustBeAtLeastOne("query_range_hours"))
    else if b.queryStepSeconds < 1 then
      assert f[2] < 1 && FieldNames[2] == "query_step_seconds";
      Fail(MustBeAtLeastOne("query_step_seconds"))
    else if b.samplesPerSecond < 1 then
      assert f[3] < 1 && FieldNames[3] == "samples_per_second";
      Fail(MustBeAtLeastOne("samples_per_second"))
    else if b.batchSize < 1 then
      assert f[4] < 1 && FieldNames[4] == "batch_size";
      Fail(MustBeAtLeastOne("batch_size"))
    else
      Pass
  }

  /** Applying the defaults twice is applying them once. */
  lemma DefaultsIdempotent(b: Benchmark, p: Prometheus)
    ensures BenchmarkWithDefaults(BenchmarkWithDefaults(b)) == BenchmarkWithDefaults(b)
    ensures PrometheusWithDefaults(PrometheusWithDefaults(p)) == PrometheusWithDefaults(p)
  {
  }

  /** A configuration with no negative benchmark field validates once the defaults are applied;
      a negative field survives setDefaults and is still rejected. */
  lemma DefaultsThenValidate(b: Benchmark)
    ensures Validate(BenchmarkWithDefaults(b)).Pass? <==> forall j :: 0 <= j < 5 ==> Fields(b)[j] >= 0
  {
    var d := BenchmarkWithDefaults(b);
    if forall j :: 0 <= j < 5 ==> Fields(b)[j] >= 0 {
      forall j | 0 <= j < 5 ensures Fields(d)[j] >= 1 {
        assert FieldDefaults[j] >= 1;
      }
    } else {
      var j :| 0 <= j < 5 && Fields(b)[j] < 0;
      assert Fields(d)[j] < 1;
    }
  }

  /** The whole configuration. setDefaults changes it in place, so it is an object. */
  class Config {
    var prometheus: Prometheus
    var benchmark: Benchmark
    var replication: seq<ReplicationLabel>
    var excludeMetrics: seq<string>
    var logLevel: string

    constructor (prometheus: Prometheus, benchmark: Benchmark, replication: seq<ReplicationLabel>,
                 excludeMetrics: seq<string>, logLevel: string)
      ensures this.prometheus == prometheus && this.benchmark == benchmark
      ensures this.replication == replication && this.excludeMetrics == excludeMetrics
      ensures this.logLevel == logLevel
    {
      this.prometheus := prometheus;
      this.benchmark := benchmark;
      this.replication := replication;
      this.excludeMetrics := excludeMetrics;
      this.logLevel := logLevel;
    }

    /** Replace every zero or empty setting by its default; nothing else is touched. */
    method SetDefaults()
      modifies this`benchmark, this`prometheus
      ensures benchmark == BenchmarkWithDefaults(old(benchmark))
      ensures prometheus == PrometheusWithDefaults(old(prometheus))
      ensures replication == old(replication) && excludeMetrics == old(excludeMetrics)
      ensures logLevel == old(logLevel)
    {
      var b, p := benchmark, prometheus;
      if b.replicationFactor == 0 {
        b := b.(replicationFactor := 2);
      }
      if b.queryRangeHours == 0 {
        b := b.(queryRangeHours := 24);
      }
      if b.queryStepSeconds == 0 {
        b := b.(queryStepSeconds := 60);
      }
      if b.samplesPerSecond == 0 {
        b := b.(samplesPerSecond := 1000);
      }
      if b.batchSize == 0 {
        b := b.(batchSize := 100);
      }
      if p.queryUrl == "" {
        p := p.(queryUrl := DefaultQueryUrl);
      }
      if p.remoteWriteUrl == "" {
        p := p.(remoteWriteUrl := DefaultRemoteWriteUrl);
      }
      benchmark, prometheus := b, p;
    }
  }
}
