/** Order-preserving selection of positions in a sequence, the shape shared by every filter of the system. */
module Sequences {

  /** The positions `i` of `s` with `p(s[i])`, in increasing order. */
  function IndicesWhere<T>(s: seq<T>, p: T -> bool): seq<nat>
  {
    if s == [] then []
    else IndicesWhere(s[..|s| - 1], p) + (if p(s[|s| - 1]) then [|s| - 1] else [])
  }

  predicate StrictlyIncreasing(xs: seq<nat>) {
    forall i, j :: 0 <= i < j < |xs| ==> xs[i] < xs[j]
  }

  /** Exactly the satisfying positions are selected, each once, in order. */
  lemma IndicesWhereSpec<T>(s: seq<T>, p: T -> bool)
    ensures var ix := IndicesWhere(s, p);
      && StrictlyIncreasing(ix)
      && (forall k :: 0 <= k < |ix| ==> ix[k] < |s| && p(s[ix[k]]))
      && (forall i :: 0 <= i < |s| && p(s[i]) ==> i in ix)
      && |ix| <= |s|
  {
    IndicesWhereSound(s, p);
    IndicesWhereSorted(s, p);
    IndicesWhereComplete(s, p);
  }

  /** Every selected position is in range and satisfies `p`. */
  lemma {:induction false} IndicesWhereSound<T>(s: seq<T>, p: T -> bool)
    ensures var ix := IndicesWhere(s, p);
      && |ix| <= |s|
      && forall k :: 0 <= k < |ix| ==> ix[k] < |s| && p(s[ix[k]])
  {
    if s != [] {
      var init := s[..|s| - 1];
      IndicesWhereSound(init, p);
      var ix0 := IndicesWhere(init, p);
      var tail := if p(s[|s| - 1]) then [|s| - 1] else [];
      var ix := IndicesWhere(s, p);
      assert ix == ix0 + tail;
      forall k | 0 <= k < |ix|
        ensures ix[k] < |s| && p(s[ix[k]])
      {
        if k < |ix0| {
          assert ix[k] == ix0[k];
          assert init[ix0[k]] == s[ix0[k]];
        }
      }
    }
  }

  /** The selected positions increase strictly. */
  lemma {:induction false} IndicesWhereSorted<T>(s: seq<T>, p: T -> bool)
    ensures StrictlyIncreasing(IndicesWhere(s, p))
  {
    if s != [] {
      var init := s[..|s| - 1];
      IndicesWhereSorted(init, p);
      IndicesWhereSound(init, p);
      var ix0 := IndicesWhere(init, p);
      var tail := if p(s[|s| - 1]) then [|s| - 1] else [];
      var ix := IndicesWhere(s, p);
      assert ix == ix0 + tail;
      forall i, j | 0 <= i < j < |ix|
        ensures ix[i] < ix[j]
      {
        if j < |ix0| {
          assert ix[i] == ix0[i] && ix[j] == ix0[j];
        } else {
          assert ix[i] == ix0[i];
        }
      }
    }
  }

  /** Every position satisfying `p` is selected. */
  lemma {:induction false} IndicesWhereComplete<T>(s: seq<T>, p: T -> bool)
    ensures forall i :: 0 <= i < |s| && p(s[i]) ==> i in IndicesWhere(s, p)
  {
    if s != [] {
      var init := s[..|s| - 1];
      IndicesWhereComplete(init, p);
      var ix0 := IndicesWhere(init, p);
      var tail := if p(s[|s| - 1]) then [|s| - 1] else [];
      var ix := IndicesWhere(s, p);
      assert ix == ix0 + tail;
      forall i | 0 <= i < |s| && p(s[i])
        ensures i in ix
      {
        if i < |s| - 1 {
          assert init[i] == s[i];
          assert i in ix0;
        }
      }
    }
  }

  /** The elements of `s` that satisfy `p`, in their original order (Rust's `retain` / `filter`). */
  function Filter<T>(s: seq<T>, p: T -> bool): seq<T>
  {
    if s == [] then []
    else Filter(s[..|s| - 1], p) + (if p(s[|s| - 1]) then [s[|s| - 1]] else [])
  }

  /** The filter keeps exactly the elements at the satisfying positions, in order. */
  lemma {:induction false} FilterSpec<T>(s: seq<T>, p: T -> bool)
    ensures var ix := IndicesWhere(s, p);
      && |Filter(s, p)| == |ix|
      && forall k :: 0 <= k < |ix| ==> ix[k] < |s| && Filter(s, p)[k] == s[ix[k]]
  {
    IndicesWhereSpec(s, p);
    if s != [] {
      var init := s[..|s| - 1];
      FilterSpec(init, p);
      IndicesWhereSpec(init, p);
    }
  }

  /** Filtering a concatenation filters each part. */
  lemma {:induction false} FilterConcat<T>(a: seq<T>, b: seq<T>, p: T -> bool)
    ensures Filter(a + b, p) == Filter(a, p) + Filter(b, p)
  {
    if b == [] {
      assert a + b == a;
    } else {
      FilterConcat(a, b[..|b| - 1], p);
      assert (a + b)[..|a + b| - 1] == a + b[..|b| - 1];
    }
  }

  /** When only the element at `i` fails `p`, filtering deletes exactly that element. */
  lemma FilterDropsOne<T>(s: seq<T>, i: nat, p: T -> bool)
    requires i < |s| && !p(s[i])
    requires forall k :: 0 <= k < |s| && k != i ==> p(s[k])
    ensures Filter(s, p) == s[..i] + s[i + 1..]
  {
    FilterAllPrefix(s, i, p);
    FilterAllSuffix(s, i + 1, p);
    FilterNone(s[i], p);
    SplitAt(s, i);
    FilterAroundOne(s[..i], s[i], s[i + 1..], p);
  }

  lemma FilterNone<T>(x: T, p: T -> bool)
    requires !p(x)
    ensures Filter([x], p) == []
  {
    assert [x][..0] == [];
  }

  lemma FilterAllPrefix<T>(s: seq<T>, i: nat, p: T -> bool)
    requires i <= |s|
    requires forall k :: 0 <= k < i ==> p(s[k])
    ensures Filter(s[..i], p) == s[..i]
  {
    var t := s[..i];
    assert forall k :: 0 <= k < |t| ==> t[k] == s[k];
    FilterAll(t, p);
  }

  lemma FilterAllSuffix<T>(s: seq<T>, i: nat, p: T -> bool)
    requires i <= |s|
    requires forall k :: i <= k < |s| ==> p(s[k])
    ensures Filter(s[i..], p) == s[i..]
  {
    var t := s[i..];
    assert forall k :: 0 <= k < |t| ==> t[k] == s[i + k];
    FilterAll(t, p);
  }

  lemma FilterAroundOne<T>(before: seq<T>, x: T, after: seq<T>, p: T -> bool)
    requires Filter(before, p) == before && Filter(after, p) == after && Filter([x], p) == []
    ensures Filter((before + [x]) + after, p) == before + after
  {
    FilterConcat(before + [x], after, p);
    FilterConcat(before, [x], p);
  }

  lemma SplitAt<T>(s: seq<T>, i: nat)
    requires i < |s|
    ensures s == (s[..i] + [s[i]]) + s[i + 1..]
  {
  }

  /** Filtering with a predicate every element satisfies changes nothing. */
  lemma {:induction false} FilterAll<T>(s: seq<T>, p: T -> bool)
    requires forall i :: 0 <= i < |s| ==> p(s[i])
    ensures Filter(s, p) == s
  {
    if s != [] {
      FilterAll(s[..|s| - 1], p);
    }
  }

  /** `f` applied to each element, in order. */
  function Map<A, B>(s: seq<A>, f: A -> B): seq<B>
  {
    if s == [] then [] else Map(s[..|s| - 1], f) + [f(s[|s| - 1])]
  }

  /** One image per element, at the element's position. */
  lemma {:induction false} MapSpec<A, B>(s: seq<A>, f: A -> B)
    ensures |Map(s, f)| == |s|
    ensures forall k :: 0 <= k < |s| ==> Map(s, f)[k] == f(s[k])
  {
    if s != [] {
      MapSpec(s[..|s| - 1], f);
    }
  }

  lemma SliceOfPrefix<T>(a: seq<T>, b: seq<T>, lo: nat, hi: nat)
    requires lo <= hi <= |a|
    ensures (a + b)[lo..hi] == a[lo..hi]
  {
  }

  lemma SliceOfSuffix<T>(a: seq<T>, b: seq<T>)
    ensures (a + b)[|a|..|a| + |b|] == b
  {
  }

  /** A slice of a slice is a slice of the whole. */
  lemma SliceOfSlice<T>(s: seq<T>, base: nat, len: nat, lo: nat, hi: nat)
    requires base + len <= |s| && lo <= hi <= len
    ensures s[base..base + len][lo..hi] == s[base + lo..base + hi]
  {
    var t := s[base..base + len][lo..hi];
    assert |t| == hi - lo;
    assert forall k :: 0 <= k < |t| ==> t[k] == s[base + lo + k];
  }
  /** The position of the last `sep` in `s`, or -1. */
  function LastIndexOf<T(==)>(s: seq<T>, sep: T): (i: int)
    ensures -1 <= i < |s|
  {
    if s == [] then -1
    else if s[|s| - 1] == sep then |s| - 1
    else LastIndexOf(s[..|s| - 1], sep)
  }

  /** With no `sep` after it, the separator placed after `x1` is the last one. */
  lemma {:induction false} LastIndexOfSplit<T>(x1: seq<T>, sep: T, x2: seq<T>)
    requires sep !in x2
    ensures LastIndexOf(x1 + [sep] + x2, sep) == |x1|
  {
    var s := x1 + [sep] + x2;
    if x2 != [] {
      var init := x2[..|x2| - 1];
      assert s[|s| - 1] == x2[|x2| - 1];
      assert s[..|s| - 1] == x1 + [sep] + init;
      LastIndexOfSplit(x1, sep, init);
    }
  }

  /** Splitting at the last separator is unambiguous when neither tail holds one. */
  lemma SplitAtLast<T>(x1: seq<T>, x2: seq<T>, y1: seq<T>, y2: seq<T>, sep: T)
    requires sep !in x2 && sep !in y2
    requires x1 + [sep] + x2 == y1 + [sep] + y2
    ensures x1 == y1 && x2 == y2
  {
    var s := x1 + [sep] + x2;
    LastIndexOfSplit(x1, sep, x2);
    LastIndexOfSplit(y1, sep, y2);
    assert x1 == s[..|x1|] && y1 == s[..|y1|];
    assert x2 == s[|x1| + 1..] && y2 == s[|y1| + 1..];
  }

  lemma DropPrefix<T>(a: seq<T>, x: seq<T>, y: seq<T>)
    requires a + x == a + y
    ensures x == y
  {
    assert x == (a + x)[|a|..];
  }

  lemma DropSuffix<T>(x: seq<T>, y: seq<T>, t: seq<T>)
    requires x + t == y + t
    ensures x == y
  {
    assert x == (x + t)[..|x|];
  }
}
