/**
 * `Array.prototype.filter` and the `map(...).filter(x => x !== null)` idiom
 * the decoders use, with lemmas that pin down exactly which elements survive
 * and that their order is kept.
 */
module Seqs {
  import opened Wrappers

  /** `s.filter(p)` */
  function Filter<T>(s: seq<T>, p: T -> bool): (r: seq<T>)
    ensures |r| <= |s|
    ensures forall x :: x in r ==> x in s && p(x)
    ensures forall x :: x in s && p(x) ==> x in r
  {
    if s == [] then []
    else if p(s[0]) then [s[0]] + Filter(s[1..], p)
    else Filter(s[1..], p)
  }

  /** `s.map(f).filter(x => x !== null)`, with `None` for `null`. */
  function FilterMap<A, B>(s: seq<A>, f: A -> Option<B>): (r: seq<B>)
    ensures |r| <= |s|
  {
    if s == [] then []
    else
      var rest := FilterMap(s[1..], f);
      match f(s[0])
      case Some(y) => [y] + rest
      case None => rest
  }

  /** `idx` lists positions of `s`, strictly increasing: an order-preserving selection. */
  ghost predicate Increasing(idx: seq<nat>, n: nat) {
    && (forall k :: 0 <= k < |idx| ==> idx[k] < n)
    && (forall k, l :: 0 <= k < l < |idx| ==> idx[k] < idx[l])
  }

  /** Positions shifted one to the right, as when an element is put in front. */
  function Shift(idx: seq<nat>): (r: seq<nat>)
    ensures |r| == |idx| && forall k :: 0 <= k < |idx| ==> r[k] == idx[k] + 1
  {
    seq(|idx|, k requires 0 <= k < |idx| => idx[k] + 1)
  }

  /** A position is in the shifted list exactly when its predecessor was in the original. */
  lemma ShiftIn(idx: seq<nat>, i: nat)
    requires i >= 1
    ensures i in Shift(idx) <==> (i - 1) in idx
  {
    if i in Shift(idx) {
      var k :| 0 <= k < |idx| && Shift(idx)[k] == i;
      assert idx[k] == i - 1;
    }
    if (i - 1) in idx {
      var k :| 0 <= k < |idx| && idx[k] == i - 1;
      assert Shift(idx)[k] == i;
    }
  }

  /** The positions of `s` at which `f` gives a value, in increasing order. */
  function Selected<A, B>(s: seq<A>, f: A -> Option<B>): (idx: seq<nat>)
    ensures |idx| == |FilterMap(s, f)|
  {
    if s == [] then []
    else (if f(s[0]).Some? then [0] else []) + Shift(Selected(s[1..], f))
  }

  lemma {:induction false} SelectedIncreasing<A, B>(s: seq<A>, f: A -> Option<B>)
    ensures Increasing(Selected(s, f), |s|)
  {
    if s != [] {
      SelectedIncreasing(s[1..], f);
      var shifted := Shift(Selected(s[1..], f));
      assert Increasing(shifted, |s|);
      assert forall k :: 0 <= k < |shifted| ==> shifted[k] > 0;
    }
  }

  lemma {:induction false} SelectedValues<A, B>(s: seq<A>, f: A -> Option<B>)
    ensures forall k :: 0 <= k < |Selected(s, f)| ==>
      Selected(s, f)[k] < |s| && f(s[Selected(s, f)[k]]) == Some(FilterMap(s, f)[k])
  {
    if s != [] {
      SelectedValues(s[1..], f);
      var tail, rt := Selected(s[1..], f), FilterMap(s[1..], f);
      var shifted := Shift(tail);
      forall k | 0 <= k < |shifted| ensures shifted[k] < |s| && f(s[shifted[k]]) == Some(rt[k]) {
        assert s[shifted[k]] == s[1..][tail[k]];
      }
      if f(s[0]).Some? {
        var cons, idx := [f(s[0]).value] + rt, [0] + shifted;
        assert FilterMap(s, f) == cons;
        assert Selected(s, f) == idx;
        forall k | 0 <= k < |idx| ensures idx[k] < |s| && f(s[idx[k]]) == Some(cons[k]) {
          if k > 0 {
            assert idx[k] == shifted[k - 1];
            assert cons[k] == rt[k - 1];
          }
        }
      } else {
        assert FilterMap(s, f) == rt;
        assert Selected(s, f) == shifted;
      }
    }
  }

  lemma {:induction false} SelectedMembers<A, B>(s: seq<A>, f: A -> Option<B>)
    ensures forall i :: 0 <= i < |s| ==> (i in Selected(s, f) <==> f(s[i]).Some?)
  {
    if s != [] {
      SelectedMembers(s[1..], f);
      var tail := Selected(s[1..], f);
      var shifted := Shift(tail);
      forall i | 1 <= i < |s| ensures i in shifted <==> f(s[i]).Some? {
        ShiftIn(tail, i);
        assert s[i] == s[1..][i - 1];
      }
      assert 0 !in shifted;
      forall i | 0 <= i < |s| ensures i in Selected(s, f) <==> f(s[i]).Some? {
        if i > 0 { assert i in Selected(s, f) <==> i in shifted; }
      }
    }
  }

  /**
   * FilterMap keeps, in order, the `f`-images of the positions where `f`
   * gives a value, and only those: the result is read off an increasing list
   * of positions `idx`, and a position is listed exactly when `f` gives a
   * value there.
   */
  lemma FilterMapSelects<A, B>(s: seq<A>, f: A -> Option<B>) returns (idx: seq<nat>)
    ensures Increasing(idx, |s|) && |idx| == |FilterMap(s, f)|
    ensures forall k :: 0 <= k < |idx| ==> f(s[idx[k]]) == Some(FilterMap(s, f)[k])
    ensures forall i :: 0 <= i < |s| ==> (i in idx <==> f(s[i]).Some?)
  {
    idx := Selected(s, f);
    SelectedIncreasing(s, f);
    SelectedValues(s, f);
    SelectedMembers(s, f);
  }

  /** Filter is FilterMap with a function that keeps or drops each element. */
  lemma {:induction false} FilterIsFilterMap<T>(s: seq<T>, p: T -> bool)
    ensures Filter(s, p) == FilterMap(s, x => if p(x) then Some(x) else None)
  {
    if s != [] {
      FilterIsFilterMap(s[1..], p);
    }
  }

  /**
   * Filter keeps exactly the elements satisfying `p`, in their order: the
   * result is `s` read at an increasing list of positions `idx`, and a
   * position is listed exactly when its element satisfies `p`.
   */
  lemma FilterSelects<T>(s: seq<T>, p: T -> bool) returns (idx: seq<nat>)
    ensures Increasing(idx, |s|) && |idx| == |Filter(s, p)|
    ensures forall k :: 0 <= k < |idx| ==> s[idx[k]] == Filter(s, p)[k]
    ensures forall i :: 0 <= i < |s| ==> (i in idx <==> p(s[i]))
  {
    var f := x => if p(x) then Some(x) else None;
    FilterIsFilterMap(s, p);
    idx := FilterMapSelects(s, f);
    forall k | 0 <= k < |idx| ensures s[idx[k]] == Filter(s, p)[k] {
      assert f(s[idx[k]]) == Some(Filter(s, p)[k]);
    }
    forall i | 0 <= i < |s| ensures i in idx <==> p(s[i]) {
      assert f(s[i]).Some? <==> p(s[i]);
    }
  }

  /** With nothing to drop, Filter is the identity. */
  lemma {:induction false} FilterAll<T>(s: seq<T>, p: T -> bool)
    requires forall x :: x in s ==> p(x)
    ensures Filter(s, p) == s
  {
    if s != [] {
      assert forall x :: x in s[1..] ==> x in s;
      FilterAll(s[1..], p);
    }
  }

  /** When `f` gives a value at every position, FilterMap is that pointwise map. */
  lemma {:induction false} FilterMapTotal<A, B>(s: seq<A>, f: A -> Option<B>, r: seq<B>)
    requires |r| == |s|
    requires forall i :: 0 <= i < |s| ==> f(s[i]) == Some(r[i])
    ensures FilterMap(s, f) == r
  {
    if s != [] {
      assert f(s[0]) == Some(r[0]);
      FilterMapTotal(s[1..], f, r[1..]);
    }
  }

  /** A filter that drops nothing had nothing to drop. */
  lemma FilterKeepsLength<T>(s: seq<T>, p: T -> bool)
    requires |Filter(s, p)| == |s|
    ensures forall x :: x in s ==> p(x)
  {
    var idx := FilterSelects(s, p);
    forall i | 0 <= i < |s| ensures p(s[i]) {
      IncreasingFull(idx, |s|, i);
    }
  }

  /** An increasing list of positions below `n` that has length `n` lists every position. */
  lemma IncreasingFull(idx: seq<nat>, n: nat, i: nat)
    requires Increasing(idx, n) && |idx| == n && i < n
    ensures i in idx
  {
    forall k | 0 <= k < |idx| ensures idx[k] >= k && idx[k] <= n - (|idx| - k) {
      IncreasingAtLeast(idx, n, k);
      IncreasingAtMost(idx, n, k);
    }
    assert idx[i] == i;
  }

  lemma {:induction false} IncreasingAtLeast(idx: seq<nat>, n: nat, k: nat)
    requires Increasing(idx, n) && k < |idx|
    ensures idx[k] >= k
    decreases k
  {
    if k > 0 { IncreasingAtLeast(idx, n, k - 1); }
  }

  lemma {:induction false} IncreasingAtMost(idx: seq<nat>, n: nat, k: nat)
    requires Increasing(idx, n) && k < |idx|
    ensures idx[k] <= n - (|idx| - k)
    decreases |idx| - k
  {
    if k < |idx| - 1 { IncreasingAtMost(idx, n, k + 1); }
  }
}
