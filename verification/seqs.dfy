/**
 The array primitives the configuration code relies on: `Array.prototype.find`,
 `Array.prototype.filter` and a first-occurrence search, as pure functions over
 sequences, with contracts that pin each one down completely.
 */
module Seqs {
  import opened Wrappers

  /** `i` is the first position of `s` whose element satisfies `p`. */
  ghost predicate IsFirst<T>(s: seq<T>, p: T -> bool, i: int) {
    && 0 <= i < |s|
    && p(s[i])
    && forall j :: 0 <= j < i ==> !p(s[j])
  }

  /** Position of the first element satisfying `p` (`findIndex`, with None for -1). */
  function FindIndex<T>(s: seq<T>, p: T -> bool): (r: Option<nat>)
    ensures r.None? <==> forall i :: 0 <= i < |s| ==> !p(s[i])
    ensures r.Some? ==> IsFirst(s, p, r.value)
  {
    if |s| == 0 then None
    else if p(s[0]) then Some(0)
    else
      match FindIndex(s[1..], p)
      case None => None
      case Some(k) => Some(k + 1)
  }

  /** `Array.prototype.find`: the first element satisfying `p`, or None. */
  function Find<T>(s: seq<T>, p: T -> bool): (r: Option<T>)
    ensures r.None? <==> forall i :: 0 <= i < |s| ==> !p(s[i])
    ensures r.Some? ==> exists i :: IsFirst(s, p, i) && s[i] == r.value
  {
    match FindIndex(s, p)
    case None => None
    case Some(i) => Some(s[i])
  }

  /** `idx` lists, in strictly increasing order, positions of `s` holding the elements of `r`. */
  ghost predicate Embedding<T>(idx: seq<nat>, r: seq<T>, s: seq<T>) {
    && |idx| == |r|
    && (forall k :: 0 <= k < |idx| ==> idx[k] < |s| && r[k] == s[idx[k]])
    && (forall k, l :: 0 <= k < l < |idx| ==> idx[k] < idx[l])
  }

  /**
   `r` is the order-preserving sub-sequence of `s` made of exactly the
   positions whose element satisfies `p`.
   */
  ghost predicate IsFilterOf<T>(r: seq<T>, s: seq<T>, p: T -> bool) {
    exists idx :: Embedding(idx, r, s) && forall i :: 0 <= i < |s| ==> (i in idx <==> p(s[i]))
  }

  /** `Array.prototype.filter`. */
  function Filter<T>(s: seq<T>, p: T -> bool): (r: seq<T>)
  {
    if |s| == 0 then []
    else if p(s[0]) then [s[0]] + Filter(s[1..], p)
    else Filter(s[1..], p)
  }

  /** The filter holds exactly the elements of `s` that satisfy `p`. */
  lemma {:induction false} FilterMembers<T(!new)>(s: seq<T>, p: T -> bool)
    ensures forall x :: x in Filter(s, p) <==> x in s && p(x)
  {
    if |s| > 0 {
      FilterMembers(s[1..], p);
      assert s == [s[0]] + s[1..];
    }
  }

  /** A filter that every element passes leaves the sequence unchanged. */
  lemma {:induction false} FilterAll<T>(s: seq<T>, p: T -> bool)
    requires forall i :: 0 <= i < |s| ==> p(s[i])
    ensures Filter(s, p) == s
  {
    if |s| > 0 {
      FilterAll(s[1..], p);
      assert [s[0]] + s[1..] == s;
    }
  }

  /** A filter that no element passes is empty. */
  lemma {:induction false} FilterNone<T>(s: seq<T>, p: T -> bool)
    requires forall i :: 0 <= i < |s| ==> !p(s[i])
    ensures Filter(s, p) == []
  {
    if |s| > 0 {
      FilterNone(s[1..], p);
    }
  }

  /** Filtering distributes over concatenation. */
  lemma {:induction false} FilterConcat<T>(a: seq<T>, b: seq<T>, p: T -> bool)
    ensures Filter(a + b, p) == Filter(a, p) + Filter(b, p)
  {
    if |a| == 0 {
      assert a + b == b;
    } else {
      assert (a + b)[1..] == a[1..] + b;
      FilterConcat(a[1..], b, p);
    }
  }

  /** Every position moved one place to the right. */
  function Shift(idx: seq<nat>): seq<nat>
  {
    seq(|idx|, k requires 0 <= k < |idx| => idx[k] + 1)
  }

  /** The positions `Filter` keeps, in order: the witness of `FilterKeepsOrder`. */
  function KeptIndices<T>(s: seq<T>, p: T -> bool): (idx: seq<nat>)
  {
    if |s| == 0 then []
    else
      var rest := Shift(KeptIndices(s[1..], p));
      if p(s[0]) then [0] + rest else rest
  }

  lemma {:induction false} KeptIndicesLength<T>(s: seq<T>, p: T -> bool)
    ensures |KeptIndices(s, p)| == |Filter(s, p)|
  {
    if |s| > 0 {
      KeptIndicesLength(s[1..], p);
    }
  }

  lemma {:induction false} KeptIndicesPoint<T>(s: seq<T>, p: T -> bool, k: nat)
    requires k < |KeptIndices(s, p)|
    ensures KeptIndices(s, p)[k] < |s|
    ensures k < |Filter(s, p)| && Filter(s, p)[k] == s[KeptIndices(s, p)[k]]
  {
    KeptIndicesLength(s, p);
    var tail := KeptIndices(s[1..], p);
    var rest := Shift(tail);
    if p(s[0]) {
      if k > 0 {
        KeptIndicesPoint(s[1..], p, k - 1);
        assert KeptIndices(s, p)[k] == rest[k - 1] == tail[k - 1] + 1;
        assert Filter(s, p)[k] == Filter(s[1..], p)[k - 1];
      }
    } else {
      KeptIndicesPoint(s[1..], p, k);
      assert KeptIndices(s, p)[k] == tail[k] + 1;
    }
  }

  lemma {:induction false} KeptIndicesIncreasing<T>(s: seq<T>, p: T -> bool)
    ensures forall k, l :: 0 <= k < l < |KeptIndices(s, p)| ==> KeptIndices(s, p)[k] < KeptIndices(s, p)[l]
  {
    if |s| > 0 {
      KeptIndicesIncreasing(s[1..], p);
      var tail := KeptIndices(s[1..], p);
      var rest := Shift(tail);
      assert forall k, l :: 0 <= k < l < |rest| ==> rest[k] < rest[l];
      if p(s[0]) {
        var idx := [0] + rest;
        forall k, l | 0 <= k < l < |idx|
          ensures idx[k] < idx[l]
        {
          assert idx[l] == rest[l - 1];
          if k > 0 {
            assert idx[k] == rest[k - 1];
          }
        }
      }
    }
  }

  lemma {:induction false} KeptIndicesMembership<T>(s: seq<T>, p: T -> bool)
    ensures forall i :: 0 <= i < |s| ==> (i in KeptIndices(s, p) <==> p(s[i]))
  {
    if |s| > 0 {
      var s' := s[1..];
      var tail := KeptIndices(s', p);
      var rest := Shift(tail);
      KeptIndicesMembership(s', p);
      forall i | 1 <= i < |s|
        ensures i in rest <==> p(s[i])
      {
        if i - 1 in tail {
          var k :| 0 <= k < |tail| && tail[k] == i - 1;
          assert rest[k] == i;
        }
        if i in rest {
          var k :| 0 <= k < |rest| && rest[k] == i;
          assert tail[k] == i - 1;
        }
        assert s'[i - 1] == s[i];
      }
      assert 0 !in rest;
    }
  }

  /** The filter is the order-preserving sub-sequence of the elements satisfying `p`. */
  lemma FilterKeepsOrder<T>(s: seq<T>, p: T -> bool)
    ensures IsFilterOf(Filter(s, p), s, p)
  {
    var idx := KeptIndices(s, p);
    KeptIndicesLength(s, p);
    KeptIndicesIncreasing(s, p);
    KeptIndicesMembership(s, p);
    forall k | 0 <= k < |idx|
      ensures idx[k] < |s| && Filter(s, p)[k] == s[idx[k]]
    {
      KeptIndicesPoint(s, p, k);
    }
    assert Embedding(idx, Filter(s, p), s);
  }

  /** Filtering around one position: what precedes it, the element if kept, what follows it. */
  lemma {:induction false} FilterAround<T>(s: seq<T>, i: int, p: T -> bool)
    requires 0 <= i < |s|
    ensures Filter(s, p) == Filter(s[..i], p) + (if p(s[i]) then [s[i]] else []) + Filter(s[i + 1..], p)
  {
    var head := if p(s[0]) then [s[0]] else [];
    assert Filter(s, p) == head + Filter(s[1..], p);
    if i == 0 {
      assert s[..0] == [];
      assert s[1..] == s[i + 1..];
    } else {
      FilterAround(s[1..], i - 1, p);
      assert s[1..][..i - 1] == s[..i][1..];
      assert s[1..][i..] == s[i + 1..];
      assert Filter(s[..i], p) == head + Filter(s[..i][1..], p);
    }
  }

  /** Position of the first occurrence of `c` in `s` (`indexOf`, with None for -1). */
  function IndexOf<T(==)>(s: seq<T>, c: T): (r: Option<nat>)
    ensures r.None? <==> c !in s
    ensures r.Some? ==> r.value < |s| && s[r.value] == c && c !in s[..r.value]
  {
    if |s| == 0 then None
    else if s[0] == c then Some(0)
    else
      match IndexOf(s[1..], c)
      case None => None
      case Some(k) =>
        assert s[..k + 1] == [s[0]] + s[1..][..k];
        Some(k + 1)
  }

  /** Searching past a prefix that does not contain `c` finds the `c` right after it. */
  lemma {:induction false} IndexOfAfterPrefix<T>(pre: seq<T>, c: T, post: seq<T>)
    requires c !in pre
    ensures IndexOf(pre + [c] + post, c) == Some(|pre|)
  {
    if |pre| > 0 {
      assert (pre + [c] + post)[1..] == pre[1..] + [c] + post;
      IndexOfAfterPrefix(pre[1..], c, post);
    }
  }
}
