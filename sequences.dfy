/** Linear search and counting over the engine's index tables. */
module Sequences {

  /** Position of the first occurrence of x in s, or -1 when x does not occur. */
  function IndexOf<T(==)>(s: seq<T>, x: T): (r: int)
    ensures -1 <= r < |s|
    ensures r >= 0 ==> s[r] == x && forall i :: 0 <= i < r ==> s[i] != x
    ensures r == -1 <==> x !in s
  {
    if |s| == 0 then -1
    else if s[0] == x then 0
    else
      var r := IndexOf(s[1..], x);
      if r < 0 then -1 else r + 1
  }

  /** Number of true entries of s. */
  function CountTrue(s: seq<bool>): (r: nat)
    ensures r <= |s|
    ensures r == 0 <==> forall i :: 0 <= i < |s| ==> !s[i]
    ensures r == |s| <==> forall i :: 0 <= i < |s| ==> s[i]
  {
    if |s| == 0 then 0 else (if s[0] then 1 else 0) + CountTrue(s[1..])
  }

  /** Every value in s is a valid index below n. */
  ghost predicate AllBelow(s: seq<int>, n: int) {
    forall i :: 0 <= i < |s| ==> 0 <= s[i] < n
  }

  /** Every entry of s is the first occurrence of its value: no value occurs twice. */
  ghost predicate Distinct<T>(s: seq<T>) {
    forall i {:trigger IndexOf(s, s[i])} :: 0 <= i < |s| ==> IndexOf(s, s[i]) == i
  }

  /** The indices 0 .. n-1 in order. */
  function Range(n: nat): (r: seq<int>)
    ensures |r| == n && AllBelow(r, n) && Distinct(r)
    ensures forall i :: 0 <= i < n ==> r[i] == i
  {
    var r := seq(n, i => i);
    assert forall i :: 0 <= i < n ==> IndexOf(r, r[i]) == i by {
      forall i | 0 <= i < n
        ensures IndexOf(r, r[i]) == i
      {
        assert r[i] in r;
      }
    }
    r
  }

  /** The entries of s at positions idx, in the order of idx. */
  function Gather<T>(s: seq<T>, idx: seq<int>): (r: seq<T>)
    requires AllBelow(idx, |s|)
    ensures |r| == |idx|
  {
    seq(|idx|, k requires 0 <= k < |idx| => s[idx[k]])
  }

  /** s with vals[k] written at position idx[k], for every k. */
  ghost function Scatter<T>(s: seq<T>, idx: seq<int>, vals: seq<T>): (r: seq<T>)
    requires AllBelow(idx, |s|) && |vals| == |idx|
    ensures |r| == |s|
  {
    seq(|s|, j requires 0 <= j < |s| => if j in idx then vals[IndexOf(idx, j)] else s[j])
  }

  /** Scattering one more entry at a fresh position is one more update. */
  lemma ScatterSnoc<T>(s: seq<T>, idx: seq<int>, vals: seq<T>, d: int, v: T)
    requires AllBelow(idx, |s|) && |vals| == |idx| && 0 <= d < |s| && d !in idx
    ensures AllBelow(idx + [d], |s|)
    ensures Scatter(s, idx + [d], vals + [v]) == Scatter(s, idx, vals)[d := v]
  {
    var idx', vals' := idx + [d], vals + [v];
    forall j | 0 <= j < |s|
      ensures Scatter(s, idx', vals')[j] == Scatter(s, idx, vals)[d := v][j]
    {
      if j in idx {
        var i := IndexOf(idx, j);
        assert idx'[i] == j;
        assert IndexOf(idx', j) == i;
      } else if j == d {
        assert IndexOf(idx', j) == |idx|;
      }
    }
  }

  /** Reading back the positions just written gives the written values. */
  lemma {:induction false} GatherScatter<T>(s: seq<T>, idx: seq<int>, vals: seq<T>)
    requires AllBelow(idx, |s|) && Distinct(idx) && |vals| == |idx|
    ensures Gather(Scatter(s, idx, vals), idx) == vals
  {
    forall k | 0 <= k < |idx|
      ensures Gather(Scatter(s, idx, vals), idx)[k] == vals[k]
    {
      assert idx[k] in idx;
      assert IndexOf(idx, idx[k]) == k;
    }
  }

  /** Writing back the values already stored changes nothing. */
  lemma {:induction false} ScatterGather<T>(s: seq<T>, idx: seq<int>)
    requires AllBelow(idx, |s|)
    ensures Scatter(s, idx, Gather(s, idx)) == s
  {
    forall j | 0 <= j < |s|
      ensures Scatter(s, idx, Gather(s, idx))[j] == s[j]
    {
      if j in idx {
        assert idx[IndexOf(idx, j)] == j;
      }
    }
  }

  /** In a repetition-free sequence the k-th entry is not among the first k. */
  lemma DistinctPrefix<T>(s: seq<T>, k: int)
    requires Distinct(s) && 0 <= k < |s|
    ensures s[k] !in s[..k]
  {
    forall i | 0 <= i < k
      ensures s[..k][i] != s[k]
    {
      assert IndexOf(s, s[i]) == i && IndexOf(s, s[k]) == k;
    }
  }

  /** One more write of the loop that scatters vals over idx, in order. */
  lemma ScatterStep<T>(orig: seq<T>, idx: seq<int>, vals: seq<T>, k: int, before: seq<T>, after: seq<T>)
    requires AllBelow(idx, |orig|) && Distinct(idx) && |vals| == |idx| && 0 <= k < |idx|
    requires before == Scatter(orig, idx[..k], vals[..k]) && after == before[idx[k] := vals[k]]
    ensures after == Scatter(orig, idx[..k + 1], vals[..k + 1])
  {
    DistinctPrefix(idx, k);
    ScatterSnoc(orig, idx[..k], vals[..k], idx[k], vals[k]);
    assert idx[..k + 1] == idx[..k] + [idx[k]];
    assert vals[..k + 1] == vals[..k] + [vals[k]];
  }
}
