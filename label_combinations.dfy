/** The label sets that copies of a series are stamped with (generateLabelCombinations in
    internal/benchmarker/benchmarker.go). Without replication labels, copy i gets
    `benchmark_replica = replica-i`. With them, the combinations are the mixed-radix
    enumeration of the configured value lists, the first list varying fastest, cut off at the
    replication factor. */
module LabelCombinator {
  import opened Config
  import opened Format
  import opened Arith

  type LabelSet = map<string, string>

  const ReplicaLabel: string := "benchmark_replica"
  const InstanceLabel: string := "benchmark_instance"

  /** `replica-<i>`. */
  function ReplicaName(i: nat): string
  {
    "replica-" + NatToString(i)
  }

  /** `bench-<j+1>`: the auto-generated instance value at (0-based) position j. */
  function InstanceName(j: nat): string
  {
    "bench-" + NatToString(j + 1)
  }

  /** The combinations used when no replication label is configured. */
  function DefaultCombinations(rf: nat): (r: seq<LabelSet>)
    ensures |r| == rf
  {
    seq(rf, i requires 0 <= i < rf => map[ReplicaLabel := ReplicaName(i)])
  }

  /** The values an empty `benchmark_instance` list is filled with. */
  function AutoValues(rf: nat): (r: seq<string>)
    ensures |r| == rf
  {
    seq(rf, j requires 0 <= j < rf => InstanceName(j))
  }

  /** One entry after auto-filling. */
  function AutoFilled(l: ReplicationLabel, rf: nat): ReplicationLabel
  {
    if l.name == InstanceLabel && |l.values| == 0 then l.(values := AutoValues(rf)) else l
  }

  /** The working copy of the replication labels, every entry auto-filled. */
  function AutoFill(p: seq<ReplicationLabel>, rf: nat): (r: seq<ReplicationLabel>)
    ensures |r| == |p|
    ensures forall k :: 0 <= k < |p| ==> r[k].name == p[k].name
    ensures forall k :: 0 <= k < |p| && (p[k].name != InstanceLabel || |p[k].values| > 0) ==> r[k] == p[k]
    ensures forall k :: 0 <= k < |p| && p[k].name == InstanceLabel && |p[k].values| == 0 ==> r[k].values == AutoValues(rf)
  {
    seq(|p|, k requires 0 <= k < |p| => AutoFilled(p[k], rf))
  }

  /** The radix an entry contributes: its number of values, or 1 when it has none. */
  function Width(l: ReplicationLabel): (w: nat)
    ensures w >= 1
  {
    if |l.values| > 0 then |l.values| else 1
  }

  /** The product of the widths: how many combinations the entries describe. */
  function Radix(p: seq<ReplicationLabel>): (r: nat)
    ensures r >= 1
  {
    if p == [] then 1 else Radix(p[..|p| - 1]) * Width(p[|p| - 1])
  }

  /** Digit k of combination i: its index into the values of entry k. The prefix product
      `Radix(p[..k])` is the place value of entry k, so entry 0 varies fastest. */
  function Digit(p: seq<ReplicationLabel>, k: nat, i: nat): (d: nat)
    requires k < |p|
    ensures d < Width(p[k])
  {
    (i / Radix(p[..k])) % Width(p[k])
  }

  /** The label set of combination i built from the first n entries; a later entry with the
      same name overwrites an earlier one, and an entry without values adds no key. */
  function LabelSetUpTo(p: seq<ReplicationLabel>, i: nat, n: nat): LabelSet
    requires n <= |p|
  {
    if n == 0 then map[]
    else if |p[n - 1].values| > 0 then LabelSetUpTo(p, i, n - 1)[p[n - 1].name := p[n - 1].values[Digit(p, n - 1, i)]]
    else LabelSetUpTo(p, i, n - 1)
  }

  /** The label set of combination i. */
  function LabelSetOf(p: seq<ReplicationLabel>, i: nat): LabelSet
  {
    LabelSetUpTo(p, i, |p|)
  }

  /** What generateLabelCombinations returns for the configured labels and replication factor. */
  function Combinations(replication: seq<ReplicationLabel>, rf: nat): (r: seq<LabelSet>)
    ensures |r| <= rf
  {
    if replication == [] then DefaultCombinations(rf)
    else
      var p := AutoFill(replication, rf);
      seq(Min(rf, Radix(p)), i requires 0 <= i < Min(rf, Radix(p)) => LabelSetOf(p, i))
  }

  lemma RadixPrefix(p: seq<ReplicationLabel>, k: nat)
    requires k < |p|
    ensures Radix(p[..k + 1]) == Radix(p[..k]) * Width(p[k])
  {
    assert p[..k + 1][..k] == p[..k];
  }

  /** The Go code, loop for loop: the auto-fill pass on a copy, the product of the non-empty
      lengths, and for each combination index the repeated `% len` / `/ len` decomposition. */
  method GenerateLabelCombinations(replication: seq<ReplicationLabel>, rf: nat) returns (combinations: seq<LabelSet>)
    ensures combinations == Combinations(replication, rf)
  {
    if |replication| == 0 {
      combinations := ReplicaCombinations(rf);
      return;
    }

    var p := AutoFillCopy(replication, rf);
    var total := TotalCombinations(p);

    var maxCombinations := rf;
    if maxCombinations > total {
      maxCombinations := total;
    }

    combinations := [];
    for i := 0 to maxCombinations
      invariant |combinations| == i
      invariant forall j :: 0 <= j < i ==> combinations[j] == LabelSetOf(p, j)
    {
      var labelSet := Combination(p, i);
      combinations := combinations + [labelSet];
    }
  }

  /** The branch without replication labels: one `benchmark_replica` set per copy. */
  method ReplicaCombinations(rf: nat) returns (combinations: seq<LabelSet>)
    ensures combinations == DefaultCombinations(rf)
  {
    var defaults := new LabelSet[rf];
    for i := 0 to rf
      invariant forall j :: 0 <= j < i ==> defaults[j] == map[ReplicaLabel := ReplicaName(j)]
    {
      defaults[i] := map[ReplicaLabel := ReplicaName(i)];
    }
    combinations := defaults[..];
  }

  /** The copy `processedLabels` with every empty `benchmark_instance` list filled in. */
  method AutoFillCopy(replication: seq<ReplicationLabel>, rf: nat) returns (p: seq<ReplicationLabel>)
    ensures p == AutoFill(replication, rf)
  {
    var processed := new ReplicationLabel[|replication|](k requires 0 <= k < |replication| => replication[k]);
    for k := 0 to processed.Length
      invariant forall m :: 0 <= m < k ==> processed[m] == AutoFilled(replication[m], rf)
      invariant forall m :: k <= m < processed.Length ==> processed[m] == replication[m]
    {
      if processed[k].name == InstanceLabel && |processed[k].values| == 0 {
        var autoValues := InstanceValues(rf);
        processed[k] := processed[k].(values := autoValues);
      }
    }
    p := processed[..];
  }

  /** `bench-1` ... `bench-<rf>`. */
  method InstanceValues(rf: nat) returns (values: seq<string>)
    ensures values == AutoValues(rf)
  {
    var autoValues := new string[rf];
    for j := 0 to rf
      invariant forall m :: 0 <= m < j ==> autoValues[m] == InstanceName(m)
    {
      autoValues[j] := InstanceName(j);
    }
    values := autoValues[..];
  }

  /** `totalCombinations`: the product of the non-empty list lengths. */
  method TotalCombinations(p: seq<ReplicationLabel>) returns (total: nat)
    ensures total == Radix(p)
  {
    total := 1;
    for k := 0 to |p|
      invariant total == Radix(p[..k])
    {
      RadixPrefix(p, k);
      if |p[k].values| > 0 {
        total := total * |p[k].values|;
      }
    }
    assert p[..|p|] == p;
  }

  /** One label set: `combIndex` starts at i and is divided by each non-empty length in
      turn, its remainder picking that entry's value. */
  method Combination(p: seq<ReplicationLabel>, i: nat) returns (labelSet: LabelSet)
    ensures labelSet == LabelSetOf(p, i)
  {
    labelSet := map[];
    var combIndex := i;
    for k := 0 to |p|
      invariant combIndex == i / Radix(p[..k])
      invariant labelSet == LabelSetUpTo(p, i, k)
    {
      RadixPrefix(p, k);
      if |p[k].values| > 0 {
        var valueIndex := combIndex % |p[k].values|;
        labelSet := labelSet[p[k].name := p[k].values[valueIndex]];
        DivDiv(i, Radix(p[..k]), |p[k].values|);
        combIndex := combIndex / |p[k].values|;
      }
    }
  }

  // ---------------------------------------------------------------------------------------
  // Properties of the enumeration

  /** No two entries share a name. */
  predicate UniqueNames(p: seq<ReplicationLabel>)
  {
    forall a, b :: 0 <= a < b < |p| ==> p[a].name != p[b].name
  }

  /** No value list repeats a value. */
  predicate DistinctValues(p: seq<ReplicationLabel>)
  {
    forall k, a, b :: 0 <= k < |p| && 0 <= a < b < |p[k].values| ==> p[k].values[a] != p[k].values[b]
  }

  /** The names of the entries among the first n that have values. */
  function KeyNames(p: seq<ReplicationLabel>, n: nat): set<string>
    requires n <= |p|
  {
    set k | 0 <= k < n && |p[k].values| > 0 :: p[k].name
  }

  /** Combination count: the replication factor without replication labels, otherwise the
      smaller of the replication factor and the product of the non-empty list lengths. */
  lemma CombinationCount(replication: seq<ReplicationLabel>, rf: nat)
    ensures replication == [] ==> |Combinations(replication, rf)| == rf
    ensures replication != [] ==> |Combinations(replication, rf)| == Min(rf, Radix(AutoFill(replication, rf)))
    ensures |Combinations(replication, rf)| <= rf
  {
  }

  /** Without replication labels, copy i is labelled `benchmark_replica = replica-<i>`. */
  lemma ReplicaSets(rf: nat, i: nat)
    requires i < rf
    ensures Combinations([], rf)[i].Keys == {ReplicaLabel}
    ensures Combinations([], rf)[i][ReplicaLabel] == "replica-" + NatToString(i)
  {
  }

  /** ... and these sets are pairwise distinct. */
  lemma ReplicaSetsDistinct(rf: nat, i: nat, j: nat)
    requires i < j < rf
    ensures Combinations([], rf)[i] != Combinations([], rf)[j]
  {
    var c := Combinations([], rf);
    if c[i] == c[j] {
      assert c[i][ReplicaLabel] == c[j][ReplicaLabel];
      PrefixedInjective("replica-", i, j);
    }
  }

  /** The auto-generated instance values are pairwise distinct. */
  lemma AutoValuesDistinct(rf: nat)
    ensures forall a, b :: 0 <= a < b < rf ==> AutoValues(rf)[a] != AutoValues(rf)[b]
  {
    forall a, b | 0 <= a < b < rf
      ensures AutoValues(rf)[a] != AutoValues(rf)[b]
    {
      if AutoValues(rf)[a] == AutoValues(rf)[b] {
        PrefixedInjective("bench-", a + 1, b + 1);
      }
    }
  }

  /** Entries without values have width 1: they multiply nothing and their digit is 0. */
  lemma {:induction false} AllEmptyRadix(p: seq<ReplicationLabel>, i: nat, n: nat)
    requires n <= |p|
    requires forall k :: 0 <= k < |p| ==> |p[k].values| == 0
    ensures Radix(p[..n]) == 1 && LabelSetUpTo(p, i, n) == map[]
  {
    if n > 0 {
      AllEmptyRadix(p, i, n - 1);
      RadixPrefix(p, n - 1);
    }
  }

  /** A spec whose lists are all empty (and none of them an instance list to fill) yields
      exactly one, empty, label set. */
  lemma AllEmptySpec(replication: seq<ReplicationLabel>, rf: nat)
    requires replication != [] && rf >= 1
    requires forall k :: 0 <= k < |replication| ==> |replication[k].values| == 0 && replication[k].name != InstanceLabel
    ensures Combinations(replication, rf) == [map[]]
  {
    var p := AutoFill(replication, rf);
    assert p == replication;
    AllEmptyRadix(p, 0, |p|);
    assert p[..|p|] == p;
  }

  /** The keys of a combination are exactly the names of the entries that have values. */
  lemma {:induction false} LabelSetKeys(p: seq<ReplicationLabel>, i: nat, n: nat)
    requires n <= |p|
    ensures LabelSetUpTo(p, i, n).Keys == KeyNames(p, n)
  {
    if n > 0 {
      LabelSetKeys(p, i, n - 1);
      if |p[n - 1].values| > 0 {
        assert KeyNames(p, n) == KeyNames(p, n - 1) + {p[n - 1].name};
      } else {
        assert KeyNames(p, n) == KeyNames(p, n - 1);
      }
    }
  }

  /** The value of a key comes from the last entry with values that carries that name: entry
      k contributes its value number `Digit(p, k, i)`. */
  lemma {:induction false} LabelSetValue(p: seq<ReplicationLabel>, i: nat, k: nat, n: nat)
    requires k < n <= |p| && |p[k].values| > 0
    requires forall m :: k < m < n && |p[m].values| > 0 ==> p[m].name != p[k].name
    ensures p[k].name in LabelSetUpTo(p, i, n)
    ensures LabelSetUpTo(p, i, n)[p[k].name] == p[k].values[Digit(p, k, i)]
  {
    if n - 1 > k {
      LabelSetValue(p, i, k, n - 1);
    }
  }

  /** The digits below n fix the index modulo the place value of entry n. */
  lemma {:induction false} DigitsDetermine(p: seq<ReplicationLabel>, n: nat, i: nat, j: nat)
    requires n <= |p|
    requires forall k :: 0 <= k < n ==> Digit(p, k, i) == Digit(p, k, j)
    ensures i % Radix(p[..n]) == j % Radix(p[..n])
  {
    if n == 0 {
      assert p[..0] == [];
    } else {
      DigitsDetermine(p, n - 1, i, j);
      RadixPrefix(p, n - 1);
      DivDiv(i, Radix(p[..n - 1]), Width(p[n - 1]));
      DivDiv(j, Radix(p[..n - 1]), Width(p[n - 1]));
      assert Digit(p, n - 1, i) == Digit(p, n - 1, j);
    }
  }

  /** Two different indices below the product differ in some digit of an entry with values. */
  lemma DigitsDiffer(p: seq<ReplicationLabel>, i: nat, j: nat)
    requires i < j < Radix(p)
    ensures exists k :: 0 <= k < |p| && |p[k].values| > 0 && Digit(p, k, i) != Digit(p, k, j)
  {
    if forall k :: 0 <= k < |p| ==> Digit(p, k, i) == Digit(p, k, j) {
      SameDigitsSameIndex(p, i, j);
    }
    var k :| 0 <= k < |p| && Digit(p, k, i) != Digit(p, k, j);
    assert Width(p[k]) > 1;
  }

  lemma SameDigitsSameIndex(p: seq<ReplicationLabel>, i: nat, j: nat)
    requires i < Radix(p) && j < Radix(p)
    requires forall k :: 0 <= k < |p| ==> Digit(p, k, i) == Digit(p, k, j)
    ensures i == j
  {
    DigitsDetermine(p, |p|, i, j);
    assert p[..|p|] == p;
    DivModUnique(i, Radix(p), 0, i);
    DivModUnique(j, Radix(p), 0, j);
  }

  /** With unique names and repetition-free value lists, the combinations below the product
      are pairwise distinct. */
  lemma LabelSetsDistinct(p: seq<ReplicationLabel>, i: nat, j: nat)
    requires UniqueNames(p) && DistinctValues(p)
    requires i < j < Radix(p)
    ensures LabelSetOf(p, i) != LabelSetOf(p, j)
  {
    DigitsDiffer(p, i, j);
    var k :| 0 <= k < |p| && |p[k].values| > 0 && Digit(p, k, i) != Digit(p, k, j);
    LabelSetValue(p, i, k, |p|);
    LabelSetValue(p, j, k, |p|);
  }

  /** The combinations generateLabelCombinations returns are pairwise distinct when the
      configured labels have unique names and repetition-free value lists. */
  lemma CombinationsDistinct(replication: seq<ReplicationLabel>, rf: nat, i: nat, j: nat)
    requires UniqueNames(replication) && DistinctValues(replication)
    requires i < j < |Combinations(replication, rf)|
    ensures Combinations(replication, rf)[i] != Combinations(replication, rf)[j]
  {
    if replication == [] {
      ReplicaSetsDistinct(rf, i, j);
    } else {
      var p := AutoFill(replication, rf);
      AutoValuesDistinct(rf);
      assert UniqueNames(p);
      assert DistinctValues(p);
      LabelSetsDistinct(p, i, j);
    }
  }
}
