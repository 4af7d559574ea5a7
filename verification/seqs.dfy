/** Sequence combinators shared by the list comprehensions and filtering
    loops of the voice agent. */
module Seqs {

  /** Elements of `s` satisfying `p`, in their original order
      (Python's `[x for x in s if p(x)]`). */
  function Filter<T>(s: seq<T>, p: T -> bool): (r: seq<T>)
    ensures |r| <= |s|
    ensures forall k :: 0 <= k < |r| ==> r[k] in s && p(r[k])
    ensures forall i :: 0 <= i < |s| && p(s[i]) ==> s[i] in r
  {
    if |s| == 0 then []
    else (if p(s[0]) then [s[0]] else []) + Filter(s[1..], p)
  }

  /** Element-wise image of `s` under `f` (Python's `[f(x) for x in s]`). */
  function MapSeq<T, U>(s: seq<T>, f: T -> U): (r: seq<U>)
    ensures |r| == |s|
    ensures forall i :: 0 <= i < |s| ==> r[i] == f(s[i])
  {
    seq(|s|, i requires 0 <= i < |s| => f(s[i]))
  }

  /** Whether the indices in `idx` are strictly increasing. */
  ghost predicate StrictlyIncreasing(idx: seq<nat>)
  {
    forall a, b :: 0 <= a < b < |idx| ==> idx[a] < idx[b]
  }

  /** The positions of `s` whose element satisfies `p`, in increasing order:
      an index-level description of what `Filter` keeps. */
  function IndicesWhere<T>(s: seq<T>, p: T -> bool): (idx: seq<nat>)
    ensures StrictlyIncreasing(idx)
    ensures forall k :: 0 <= k < |idx| ==> idx[k] < |s|
    ensures forall i :: i in idx <==> 0 <= i < |s| && p(s[i])
  {
    if |s| == 0 then []
    else
      var n := |s| - 1;
      IndicesWhere(s[..n], p) + (if p(s[n]) then [n] else [])
  }

  /** Filtering distributes over concatenation: what `p` keeps of `a + b`
      is what it keeps of `a` followed by what it keeps of `b`. */
  lemma {:induction false} FilterAppend<T>(a: seq<T>, b: seq<T>, p: T -> bool)
    ensures Filter(a + b, p) == Filter(a, p) + Filter(b, p)
  {
    if |a| == 0 {
      assert a + b == b;
    } else {
      assert (a + b)[1..] == a[1..] + b;
      FilterAppend(a[1..], b, p);
    }
  }

  /** `Filter` keeps nothing exactly when no element satisfies `p`. */
  lemma {:induction false} FilterNone<T>(s: seq<T>, p: T -> bool)
    ensures Filter(s, p) == [] <==> forall i :: 0 <= i < |s| ==> !p(s[i])
  {
    if |s| > 0 {
      FilterNone(s[1..], p);
      assert forall i :: 1 <= i < |s| ==> s[i] == s[1..][i - 1];
    }
  }

  /** Mapping distributes over concatenation. */
  lemma MapSeqAppend<T, U>(a: seq<T>, b: seq<T>, f: T -> U)
    ensures MapSeq(a + b, f) == MapSeq(a, f) + MapSeq(b, f)
  {
    assert forall i :: 0 <= i < |a| + |b| ==> (a + b)[i] == if i < |a| then a[i] else b[i - |a|];
  }

  /** `Filter` keeps exactly the elements at `IndicesWhere`, in that order:
      the k-th kept element is the element at the k-th satisfying index. */
  lemma {:induction false} FilterByIndices<T>(s: seq<T>, p: T -> bool)
    ensures |Filter(s, p)| == |IndicesWhere(s, p)|
    ensures forall k :: 0 <= k < |Filter(s, p)| ==> Filter(s, p)[k] == s[IndicesWhere(s, p)[k]]
  {
    if |s| > 0 {
      var n := |s| - 1;
      assert s == s[..n] + [s[n]];
      FilterAppend(s[..n], [s[n]], p);
      FilterByIndices(s[..n], p);
    }
  }
}
