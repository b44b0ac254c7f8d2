/** Order-preserving filtering of sequences: the boolean-mask indexing
    `collection[mask]` that every selection step of the analysis uses. */
module Seqs {

  /** The elements of `s` that satisfy `p`, in their original order. */
  function Filter<T>(s: seq<T>, p: T -> bool): (r: seq<T>)
    ensures |r| <= |s|
    ensures forall k :: 0 <= k < |r| ==> r[k] in s && p(r[k])
    ensures forall k :: 0 <= k < |s| && p(s[k]) ==> s[k] in r
    decreases |s|
  {
    if |s| == 0 then []
    else (if p(s[0]) then [s[0]] else []) + Filter(s[1..], p)
  }

  function Shift(idx: seq<nat>): (r: seq<nat>)
    ensures |r| == |idx| && forall k :: 0 <= k < |idx| ==> r[k] == idx[k] + 1
  {
    seq(|idx|, k requires 0 <= k < |idx| => idx[k] + 1)
  }

  /** The positions of `s` whose elements `Filter(s, p)` keeps. */
  ghost function KeptPositions<T>(s: seq<T>, p: T -> bool): seq<nat>
    decreases |s|
  {
    if |s| == 0 then []
    else (if p(s[0]) then [0] else []) + Shift(KeptPositions(s[1..], p))
  }

  lemma {:induction false} KeptLength<T>(s: seq<T>, p: T -> bool)
    ensures |KeptPositions(s, p)| == |Filter(s, p)|
    decreases |s|
  {
    if |s| > 0 {
      KeptLength(s[1..], p);
    }
  }

  lemma {:induction false} KeptSelect<T>(s: seq<T>, p: T -> bool)
    ensures forall k :: 0 <= k < |KeptPositions(s, p)| ==>
      KeptPositions(s, p)[k] < |s| && k < |Filter(s, p)| && Filter(s, p)[k] == s[KeptPositions(s, p)[k]]
    decreases |s|
  {
    if |s| > 0 {
      var tail, ft := KeptPositions(s[1..], p), Filter(s[1..], p);
      KeptSelect(s[1..], p);
      KeptLength(s[1..], p);
      var hi: seq<nat> := if p(s[0]) then [0] else [];
      var hf: seq<T> := if p(s[0]) then [s[0]] else [];
      var idx, f := hi + Shift(tail), hf + ft;
      assert idx == KeptPositions(s, p) && f == Filter(s, p);
      forall k | 0 <= k < |idx|
        ensures idx[k] < |s| && k < |f| && f[k] == s[idx[k]]
      {
        if k >= |hi| {
          assert idx[k] == tail[k - |hi|] + 1;
          assert f[k] == ft[k - |hi|] == s[1..][tail[k - |hi|]];
        }
      }
    }
  }

  lemma {:induction false} KeptIncreasing<T>(s: seq<T>, p: T -> bool)
    ensures forall k, l :: 0 <= k < l < |KeptPositions(s, p)| ==>
      KeptPositions(s, p)[k] < KeptPositions(s, p)[l]
    decreases |s|
  {
    if |s| > 0 {
      var tail := KeptPositions(s[1..], p);
      KeptIncreasing(s[1..], p);
      var idx := KeptPositions(s, p);
      var h := if p(s[0]) then 1 else 0;
      forall k, l | 0 <= k < l < |idx|
        ensures idx[k] < idx[l]
      {
        assert idx[l] == tail[l - h] + 1;
        if k >= h {
          assert idx[k] == tail[k - h] + 1;
        }
      }
    }
  }

  lemma ShiftMembership(idx: seq<nat>, i: nat)
    ensures i in Shift(idx) <==> i >= 1 && i - 1 in idx
  {
    var sh := Shift(idx);
    if i >= 1 && i - 1 in idx {
      var k :| 0 <= k < |idx| && idx[k] == i - 1;
      assert sh[k] == i;
    }
  }

  lemma {:induction false} KeptExact<T>(s: seq<T>, p: T -> bool)
    ensures forall i :: 0 <= i < |s| ==> (p(s[i]) <==> i in KeptPositions(s, p))
    decreases |s|
  {
    if |s| > 0 {
      var tail := KeptPositions(s[1..], p);
      KeptExact(s[1..], p);
      var head: seq<nat> := if p(s[0]) then [0] else [];
      assert KeptPositions(s, p) == head + Shift(tail);
      forall i | 0 <= i < |s|
        ensures p(s[i]) <==> i in head + Shift(tail)
      {
        ShiftMembership(tail, i);
        if i > 0 {
          assert s[i] == s[1..][i - 1];
        }
      }
    }
  }

  /** The kept positions are increasing, they are exactly the positions whose
      element satisfies `p`, and the k-th element of the filtered sequence is
      the element at the k-th kept position: the filter keeps every passing
      element, drops every failing one, and preserves their order. */
  lemma FilterKeepsPositions<T>(s: seq<T>, p: T -> bool)
    ensures var idx := KeptPositions(s, p);
      && |idx| == |Filter(s, p)|
      && (forall k :: 0 <= k < |idx| ==> idx[k] < |s| && Filter(s, p)[k] == s[idx[k]])
      && (forall k, l :: 0 <= k < l < |idx| ==> idx[k] < idx[l])
      && (forall i :: 0 <= i < |s| ==> (p(s[i]) <==> i in idx))
  {
    KeptLength(s, p);
    KeptSelect(s, p);
    KeptIncreasing(s, p);
    KeptExact(s, p);
  }

  /** A sequence whose elements all pass is left as it is. */
  lemma {:induction false} FilterAllPass<T>(s: seq<T>, p: T -> bool)
    requires forall k :: 0 <= k < |s| ==> p(s[k])
    ensures Filter(s, p) == s
    decreases |s|
  {
    if |s| > 0 {
      FilterAllPass(s[1..], p);
      assert [s[0]] + s[1..] == s;
    }
  }

  /** Re-applying a filter changes nothing. */
  lemma FilterIdempotent<T>(s: seq<T>, p: T -> bool)
    ensures Filter(Filter(s, p), p) == Filter(s, p)
  {
    FilterAllPass(Filter(s, p), p);
  }
}
