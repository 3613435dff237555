/** Order-preserving selection, the `Array.prototype.filter` the stores use. */
module Sequences {
  /** The elements of `s` that `keep` accepts, in their order. */
  function Filter<T>(s: seq<T>, keep: T -> bool): (r: seq<T>)
    ensures |r| <= |s|
    ensures forall x <- r :: x in s && keep(x)
    ensures forall x <- s | keep(x) :: x in r
  {
    if s == [] then []
    else
      assert forall x <- s[1..] :: x in s;
      (if keep(s[0]) then [s[0]] else []) + Filter(s[1..], keep)
  }

  /**
   * `r` is `s` read through the index map `idx`: increasing indices, every
   * element of `r` accepted, and every accepted position of `s` indexed.
   */
  ghost predicate SelectedBy<T>(r: seq<T>, s: seq<T>, keep: T -> bool, idx: seq<nat>) {
    && |idx| == |r|
    && (forall k | 0 <= k < |idx| :: idx[k] < |s| && r[k] == s[idx[k]] && keep(r[k]))
    && (forall k, l | 0 <= k < l < |idx| :: idx[k] < idx[l])
    && (forall i | 0 <= i < |s| && keep(s[i]) :: i in idx)
  }

  /** `Filter` keeps the accepted elements in order: it is `s` read through an increasing index map. */
  lemma {:induction false} FilterInOrder<T>(s: seq<T>, keep: T -> bool) returns (idx: seq<nat>)
    ensures SelectedBy(Filter(s, keep), s, keep, idx)
    decreases |s|
  {
    if s == [] {
      return [];
    }
    var rest := FilterInOrder(s[1..], keep);
    var shifted := seq(|rest|, k requires 0 <= k < |rest| => rest[k] + 1);
    var pad := if keep(s[0]) then 1 else 0;
    idx := (if keep(s[0]) then [0] else []) + shifted;
    SelectedCons(s, keep, Filter(s[1..], keep), rest, shifted, pad, idx);
  }

  lemma SelectedCons<T>(s: seq<T>, keep: T -> bool, rest: seq<T>, idx0: seq<nat>, shifted: seq<nat>, pad: nat, idx: seq<nat>)
    requires s != [] && SelectedBy(rest, s[1..], keep, idx0)
    requires |shifted| == |idx0| && forall k | 0 <= k < |idx0| :: shifted[k] == idx0[k] + 1
    requires pad == (if keep(s[0]) then 1 else 0) && idx == (if keep(s[0]) then [0] else []) + shifted
    ensures SelectedBy((if keep(s[0]) then [s[0]] else []) + rest, s, keep, idx)
  {
    ConsPicks(s, keep, rest, idx0, pad, idx);
    ConsIncreasing(idx0, pad, idx);
    ConsCovers(s, keep, idx0, pad, idx);
  }

  lemma ConsPicks<T>(s: seq<T>, keep: T -> bool, rest: seq<T>, idx0: seq<nat>, pad: nat, idx: seq<nat>)
    requires s != [] && |idx0| == |rest|
    requires forall k | 0 <= k < |idx0| :: idx0[k] < |s| - 1 && rest[k] == s[1..][idx0[k]] && keep(rest[k])
    requires pad == (if keep(s[0]) then 1 else 0) && |idx| == |idx0| + pad
    requires pad == 1 ==> idx[0] == 0
    requires forall k | pad <= k < |idx| :: idx[k] == idx0[k - pad] + 1
    ensures var r := (if keep(s[0]) then [s[0]] else []) + rest;
            |idx| == |r| && forall k | 0 <= k < |idx| :: idx[k] < |s| && r[k] == s[idx[k]] && keep(r[k])
  {
    var r := (if keep(s[0]) then [s[0]] else []) + rest;
    forall k | 0 <= k < |idx|
      ensures idx[k] < |s| && r[k] == s[idx[k]] && keep(r[k])
    {
      if k >= pad {
        assert r[k] == rest[k - pad];
        assert s[1..][idx0[k - pad]] == s[idx[k]];
      }
    }
  }

  lemma ConsIncreasing(idx0: seq<nat>, pad: nat, idx: seq<nat>)
    requires pad <= 1 && |idx| == |idx0| + pad
    requires pad == 1 ==> idx[0] == 0
    requires forall k | pad <= k < |idx| :: idx[k] == idx0[k - pad] + 1
    requires forall k, l | 0 <= k < l < |idx0| :: idx0[k] < idx0[l]
    ensures forall k, l | 0 <= k < l < |idx| :: idx[k] < idx[l]
  {
    forall k, l | 0 <= k < l < |idx|
      ensures idx[k] < idx[l]
    {
      if k >= pad {
        assert idx0[k - pad] < idx0[l - pad];
      }
    }
  }

  lemma ConsCovers<T>(s: seq<T>, keep: T -> bool, idx0: seq<nat>, pad: nat, idx: seq<nat>)
    requires s != [] && forall i | 0 <= i < |s| - 1 && keep(s[1..][i]) :: i in idx0
    requires pad == (if keep(s[0]) then 1 else 0) && |idx| == |idx0| + pad
    requires pad == 1 ==> idx[0] == 0
    requires forall k | pad <= k < |idx| :: idx[k] == idx0[k - pad] + 1
    ensures forall i | 0 <= i < |s| && keep(s[i]) :: i in idx
  {
    forall i | 0 <= i < |s| && keep(s[i])
      ensures i in idx
    {
      if i == 0 {
        assert idx[0] == 0;
      } else {
        assert s[1..][i - 1] == s[i];
        var k :| 0 <= k < |idx0| && idx0[k] == i - 1;
        assert idx[k + pad] == i;
      }
    }
  }
}
