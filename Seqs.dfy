/**
 * Sequence helpers shared by the Discord reply splitter (chunks of 2000
 * characters) and the memory clustering (chunks of 20 memories): Python's
 * `[s[i:i + n] for i in range(0, len(s), n)]` and `s[-n:]`.
 */
module Seqs {

  function Flatten<T>(parts: seq<seq<T>>): seq<T> {
    if parts == [] then [] else parts[0] + Flatten(parts[1..])
  }

  function Min(a: int, b: int): int {
    if a <= b then a else b
  }

  /**
   * `[s[i:i + n] for i in range(0, len(s), n)]`: consecutive slices of `s`
   * that together give back `s`; every slice but the last has exactly `n`
   * elements and none is empty.
   */
  function Chunks<T>(s: seq<T>, n: nat): seq<seq<T>>
    requires n > 0
    decreases |s|
  {
    if |s| <= n then (if s == [] then [] else [s])
    else [s[..n]] + Chunks(s[n..], n)
  }

  /**
   * The chunks give the sequence back in order; none is empty, none is
   * longer than `n`, and all but the last are exactly `n` long.
   */
  lemma {:induction false} ChunksCover<T>(s: seq<T>, n: nat)
    requires n > 0
    ensures var r := Chunks(s, n);
      && Flatten(r) == s
      && (forall k :: 0 <= k < |r| ==> 0 < |r[k]| <= n)
      && (forall k :: 0 <= k < |r| - 1 ==> |r[k]| == n)
    decreases |s|
  {
    if |s| > n {
      var t := s[n..];
      ChunksCover(t, n);
      var r := Chunks(s, n);
      assert r == [s[..n]] + Chunks(t, n);
      assert s[..n] + t == s;
      assert forall k :: 1 <= k < |r| ==> r[k] == Chunks(t, n)[k - 1];
    } else if s != [] {
      assert Flatten([s]) == s + [];
    }
  }

  /** There are as many chunks as `range(0, len(s), n)` has elements: `ceil(len(s) / n)`. */
  lemma {:induction false} ChunkCount<T>(s: seq<T>, n: nat)
    requires n > 0
    ensures (|Chunks(s, n)| - 1) * n < |s| <= |Chunks(s, n)| * n || (s == [] && Chunks(s, n) == [])
    decreases |s|
  {
    if |s| > n {
      ChunkCount(s[n..], n);
      var m := |Chunks(s[n..], n)|;
      assert |Chunks(s, n)| == m + 1;
      assert (m + 1) * n == m * n + n;
    }
  }

  /** The k-th chunk is exactly the slice the comprehension takes at `i = k * n`. */
  lemma ChunkAt<T>(s: seq<T>, n: nat, k: nat)
    requires n > 0 && k < |Chunks(s, n)|
    ensures k * n < |s|
    ensures Chunks(s, n)[k] == s[k * n .. Min(k * n + n, |s|)]
  {
    ChunkAtOffset(s, n, k);
    OffsetIsProduct(k, n);
  }

  /** `k * n`, counted up one chunk at a time. */
  function Offset(k: nat, n: nat): nat {
    if k == 0 then 0 else Offset(k - 1, n) + n
  }

  lemma {:induction false} OffsetIsProduct(k: nat, n: nat)
    ensures Offset(k, n) == k * n
  {
    if k > 0 {
      OffsetIsProduct(k - 1, n);
      MulStep(k, n);
    }
  }

  lemma {:induction false} ChunkAtOffset<T>(s: seq<T>, n: nat, k: nat)
    requires n > 0 && k < |Chunks(s, n)|
    ensures Offset(k, n) < |s|
    ensures Chunks(s, n)[k] == s[Offset(k, n) .. Min(Offset(k, n) + n, |s|)]
    decreases |s|
  {
    if k > 0 {
      assert |s| > n;
      var t := s[n..];
      assert Chunks(s, n)[k] == Chunks(t, n)[k - 1];
      ChunkAtOffset(t, n, k - 1);
      var j := Offset(k - 1, n);
      SliceOfSuffix(s, n, j, Min(j + n, |t|));
    }
  }

  lemma MulStep(k: nat, n: nat)
    requires k > 0
    ensures (k - 1) * n + n == k * n
  {
  }

  lemma SliceOfSuffix<T>(s: seq<T>, n: nat, lo: nat, hi: nat)
    requires n <= |s| && lo <= hi <= |s| - n
    ensures s[n..][lo..hi] == s[n + lo .. n + hi]
  {
  }

  /** `s[-n:]` for `n > 0`: the last `n` elements, or all of `s` when it is shorter. */
  function LastN<T>(s: seq<T>, n: nat): (r: seq<T>)
    requires n > 0
    ensures |r| == Min(|s|, n)
    ensures r == s[|s| - |r|..]
  {
    if |s| <= n then s else s[|s| - n..]
  }

  /** Keeping the last `n` of a suffix that is long enough is keeping the last `n` of the whole. */
  lemma LastNOfSuffix<T>(y: seq<T>, i: nat, n: nat)
    requires n > 0 && i <= |y| && |y| - i >= Min(|y|, n)
    ensures LastN(y[i..], n) == LastN(y, n)
  {
    if |y| - i > n {
      assert y[i..][|y| - i - n..] == y[|y| - n..];
    } else if |y| <= n {
      assert y[0..] == y;
    }
  }

  /**
   * A bounded buffer can be trimmed early: dropping the oldest elements
   * beyond `n` before appending gives the same last `n` as trimming once
   * at the end.
   */
  lemma LastNAppend<T>(s: seq<T>, t: seq<T>, n: nat)
    requires n > 0
    ensures LastN(LastN(s, n) + t, n) == LastN(s + t, n)
  {
    if |s| > n {
      var u := s[|s| - n..];
      assert LastN(s, n) == u;
      assert u + t == (s + t)[|s| - n..];
      LastNOfSuffix(s + t, |s| - n, n);
    }
  }
}
