/** Sequence helpers shared by the writer and the benchmarker: order-preserving filtering,
    cutting a sequence into contiguous windows, and strict monotonicity. */
module Seqs {
  import opened Arith

  /** The elements of `s` that satisfy `keep`, in their original order. */
  function Filter<T>(s: seq<T>, keep: T -> bool): (r: seq<T>)
    ensures |r| <= |s|
  {
    if s == [] then []
    else Filter(s[..|s| - 1], keep) + (if keep(s[|s| - 1]) then [s[|s| - 1]] else [])
  }

  lemma {:induction false} FilterMembers<T>(s: seq<T>, keep: T -> bool, x: T)
    ensures x in Filter(s, keep) <==> x in s && keep(x)
  {
    if s != [] {
      var init := s[..|s| - 1];
      FilterMembers(init, keep, x);
      assert s == init + [s[|s| - 1]];
    }
  }

  /** Filtering a sequence that grows by one element. */
  lemma FilterSnoc<T>(s: seq<T>, x: T, keep: T -> bool)
    ensures Filter(s + [x], keep) == Filter(s, keep) + (if keep(x) then [x] else [])
  {
    assert (s + [x])[..|s + [x]| - 1] == s;
  }

  /** The concatenation of a sequence of sequences. */
  function Flatten<T>(ss: seq<seq<T>>): seq<T>
  {
    if ss == [] then [] else ss[0] + Flatten(ss[1..])
  }

  /** The lengths of the members, in order. */
  function Sizes<T>(ss: seq<seq<T>>): (r: seq<nat>)
    ensures |r| == |ss| && forall j :: 0 <= j < |ss| ==> r[j] == |ss[j]|
  {
    seq(|ss|, j requires 0 <= j < |ss| => |ss[j]|)
  }

  lemma AppendAssoc<T>(a: seq<T>, b: seq<T>, c: seq<T>)
    ensures (a + b) + c == a + (b + c)
  {
  }

  lemma SizesSnoc<T>(ss: seq<seq<T>>, x: seq<T>)
    ensures Sizes(ss + [x]) == Sizes(ss) + [|x|]
  {
  }

  /** The contiguous windows `[i, min(i + size, n))` for i = 0, size, 2 * size, ... of `s`. */
  function Windows<T>(s: seq<T>, size: nat): seq<seq<T>>
    requires size >= 1
    decreases |s|
  {
    if s == [] then []
    else if |s| <= size then [s]
    else [s[..size]] + Windows(s[size..], size)
  }

  /** The windows that start at index `i`: one window `s[i..min(i + size, n)]`, then the rest. */
  lemma WindowsStep<T>(s: seq<T>, size: nat, i: nat)
    requires size >= 1 && i < |s|
    ensures Windows(s[i..], size) == [s[i..Min(i + size, |s|)]] + Windows(s[Min(i + size, |s|)..], size)
  {
    var t := s[i..];
    if |t| <= size {
      assert Min(i + size, |s|) == |s|;
      assert s[|s|..] == [];
      assert s[i..|s|] == t;
    } else {
      assert t[..size] == s[i..i + size];
      assert t[size..] == s[i + size..];
    }
  }

  /** A loop that walks the windows: when `W[k..]` are the windows of `s` from index `i` on,
      window k starts at `i`, and the windows after it are those from the end of window k on. */
  lemma WindowsNext<T>(s: seq<T>, size: nat, i: nat, W: seq<seq<T>>, k: nat)
    requires size >= 1 && i < |s|
    requires k <= |W| && W[k..] == Windows(s[Min(i, |s|)..], size)
    ensures k < |W| && W[k] == s[i..Min(i + size, |s|)]
    ensures W[k + 1..] == Windows(s[Min(i + size, |s|)..], size)
  {
    WindowsStep(s, size, i);
    assert Min(i, |s|) == i;
    assert W[k + 1..] == W[k..][1..];
  }

  lemma DropPrefix<T>(a: seq<T>, b: seq<T>)
    ensures (a + b)[|a|..] == b
  {
  }

  lemma TakeSnoc<T>(s: seq<T>, k: nat)
    requires k < |s|
    ensures s[..k + 1] == s[..k] + [s[k]]
  {
  }

  /** Cutting loses and reorders nothing. */
  lemma {:induction false} WindowsFlatten<T>(s: seq<T>, size: nat)
    requires size >= 1
    ensures Flatten(Windows(s, size)) == s
    decreases |s|
  {
    if |s| > size {
      WindowsFlatten(s[size..], size);
      assert s == s[..size] + s[size..];
    }
  }

  /** Every window is non-empty and at most `size` long. */
  lemma {:induction false} WindowsSized<T>(s: seq<T>, size: nat)
    requires size >= 1
    ensures forall c :: c in Windows(s, size) ==> 1 <= |c| <= size
    decreases |s|
  {
    if |s| > size {
      WindowsSized(s[size..], size);
    }
  }

  /** There are ceil(n / size) windows. */
  lemma {:induction false} WindowsCount<T>(s: seq<T>, size: nat)
    requires size >= 1
    ensures |Windows(s, size)| == (|s| + size - 1) / size
    decreases |s|
  {
    if s == [] {
      DivModUnique(size - 1, size, 0, size - 1);
    } else if |s| <= size {
      DivModUnique(|s| + size - 1, size, 1, |s| - 1);
    } else {
      WindowsCount(s[size..], size);
      DivPlusDivisor(|s| - 1, size);
    }
  }

  /** Window k is exactly `s[k * size .. min((k + 1) * size, n)]`. */
  lemma {:induction false} WindowAt<T>(s: seq<T>, size: nat, k: nat)
    requires size >= 1 && k < |Windows(s, size)|
    ensures k * size < |s|
    ensures Windows(s, size)[k] == s[k * size .. Min((k + 1) * size, |s|)]
    decreases |s|
  {
    if k > 0 {
      var t := s[size..];
      WindowAt(t, size, k - 1);
      var lo, hi := (k - 1) * size, Min(k * size, |t|);
      WindowBounds(k, size, |s|);
      assert Windows(s, size)[k] == t[lo..hi];
      SliceOfDrop(s, size, lo, hi);
    }
  }

  lemma SliceOfDrop<T>(s: seq<T>, d: nat, lo: nat, hi: nat)
    requires d <= |s| && lo <= hi <= |s| - d
    ensures s[d..][lo..hi] == s[d + lo..d + hi]
  {
    assert forall j :: 0 <= j < hi - lo ==> s[d..][lo..hi][j] == s[d + lo + j];
  }

  lemma WindowBounds(k: nat, size: nat, n: nat)
    requires k > 0 && size <= n
    ensures size + (k - 1) * size == k * size
    ensures size + Min(k * size, n - size) == Min((k + 1) * size, n)
  {
    MulSucc(k - 1, size);
    MulSucc(k, size);
  }

  ghost predicate StrictlyIncreasing(s: seq<int>)
  {
    forall i, j :: 0 <= i < j < |s| ==> s[i] < s[j]
  }

  lemma IncreasingSuffix(s: seq<int>, t: seq<int>)
    requires StrictlyIncreasing(s + t)
    ensures StrictlyIncreasing(t)
  {
    forall i, j | 0 <= i < j < |t| ensures t[i] < t[j] {
      assert t[i] == (s + t)[|s| + i] && t[j] == (s + t)[|s| + j];
    }
  }

  lemma IncreasingSnoc(s: seq<int>, x: int)
    requires StrictlyIncreasing(s) && forall t :: t in s ==> t < x
    ensures StrictlyIncreasing(s + [x])
  {
    forall i, j | 0 <= i < j < |s| + 1 ensures (s + [x])[i] < (s + [x])[j] {
      if j == |s| {
        assert (s + [x])[i] == s[i];
        assert s[i] in s;
      }
    }
  }
}
