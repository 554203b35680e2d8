/**
 * Sequence utilities shared by the segmenter and the three stream readers:
 * the first index satisfying a predicate, concatenation, total length and
 * element-wise mapping.
 */
module Seqs {

  /** The index of the first element at or after `from` that satisfies `p`, or `|s|` when there is none. */
  function FirstFrom<T>(s: seq<T>, from: nat, p: T -> bool): (k: nat)
    requires from <= |s|
    ensures from <= k <= |s|
    ensures k < |s| ==> p(s[k])
    decreases |s| - from
  {
    if from == |s| || p(s[from]) then from else FirstFrom(s, from + 1, p)
  }

  /** Nothing before the index `FirstFrom` finds satisfies `p`. */
  lemma {:induction false} FirstFromSkips<T>(s: seq<T>, from: nat, p: T -> bool)
    requires from <= |s|
    ensures forall i | from <= i < FirstFrom(s, from, p) :: !p(s[i])
    decreases |s| - from
  {
    if from < |s| && !p(s[from]) {
      FirstFromSkips(s, from + 1, p);
    }
  }

  /** Any index with the defining properties is the one `FirstFrom` finds. */
  lemma FirstFromIs<T>(s: seq<T>, from: nat, p: T -> bool, k: nat)
    requires from <= k <= |s|
    requires forall i | from <= i < k :: !p(s[i])
    requires k < |s| ==> p(s[k])
    ensures FirstFrom(s, from, p) == k
  {
    FirstFromSkips(s, from, p);
  }

  /** Elements in front that all fail `p` shift the index `FirstFrom` finds by their number. */
  lemma FirstFromAfter<T>(w: seq<T>, s: seq<T>, p: T -> bool)
    requires forall i | 0 <= i < |w| :: !p(w[i])
    ensures FirstFrom(w + s, 0, p) == |w| + FirstFrom(s, 0, p)
  {
    var k := FirstFrom(s, 0, p);
    FirstFromSkips(s, 0, p);
    forall i | 0 <= i < |w| + k
      ensures !p((w + s)[i])
    {
      if i >= |w| {
        assert (w + s)[i] == s[i - |w|];
      }
    }
    if k < |s| {
      assert (w + s)[|w| + k] == s[k];
    }
    FirstFromIs(w + s, 0, p, |w| + k);
  }

  /** Elements appended after an element satisfying `p` do not move the index `FirstFrom` finds. */
  lemma FirstFromPrefix<T>(s: seq<T>, t: seq<T>, p: T -> bool)
    requires FirstFrom(s, 0, p) < |s|
    ensures FirstFrom(s + t, 0, p) == FirstFrom(s, 0, p)
  {
    var k := FirstFrom(s, 0, p);
    FirstFromSkips(s, 0, p);
    assert (s + t)[k] == s[k];
    assert forall i | 0 <= i < k :: (s + t)[i] == s[i];
    FirstFromIs(s + t, 0, p, k);
  }

  /** Where index `k` of `a + b` lands once an element is inserted after `a`, which has `cut` elements. */
  function Shift(cut: nat, k: nat): nat
  {
    if k < cut then k else k + 1
  }

  lemma InsertIndex<T>(a: seq<T>, t: T, b: seq<T>, i: nat)
    requires i < |a + b|
    ensures Shift(|a|, i) < |a + [t] + b| && (a + [t] + b)[Shift(|a|, i)] == (a + b)[i]
  {
  }

  /** Inserting an element that fails `p` moves the index `FirstFrom` finds past it when the
      index lies at or after the insertion point. */
  lemma FirstFromInsert<T>(a: seq<T>, t: T, b: seq<T>, p: T -> bool)
    requires !p(t)
    ensures FirstFrom(a + [t] + b, 0, p) == Shift(|a|, FirstFrom(a + b, 0, p))
  {
    var s := a + b;
    var s' := a + [t] + b;
    var k := FirstFrom(s, 0, p);
    FirstFromSkips(s, 0, p);
    forall i | 0 <= i < Shift(|a|, k)
      ensures !p(s'[i])
    {
      if i < |a| {
        InsertIndex(a, t, b, i);
      } else if i > |a| {
        InsertIndex(a, t, b, i - 1);
      }
    }
    if k < |s| {
      InsertIndex(a, t, b, k);
    }
    FirstFromIs(s', 0, p, Shift(|a|, k));
  }

  function Last<T>(s: seq<T>): T
    requires s != []
  {
    s[|s| - 1]
  }

  /** The elements of `xs`, one after the other. */
  function Concat<T>(xs: seq<seq<T>>): seq<T>
  {
    if xs == [] then [] else xs[0] + Concat(xs[1..])
  }

  /** The sum of the lengths of the elements of `xs`. */
  function SumLen<T>(xs: seq<seq<T>>): nat
  {
    if xs == [] then 0 else |xs[0]| + SumLen(xs[1..])
  }

  lemma {:induction false} ConcatLength<T>(xs: seq<seq<T>>)
    ensures |Concat(xs)| == SumLen(xs)
  {
    if xs != [] {
      ConcatLength(xs[1..]);
    }
  }

  lemma {:induction false} ConcatAppend<T>(xs: seq<seq<T>>, ys: seq<seq<T>>)
    ensures Concat(xs + ys) == Concat(xs) + Concat(ys)
  {
    if xs == [] {
      assert xs + ys == ys;
    } else {
      assert (xs + ys)[1..] == xs[1..] + ys;
      ConcatAppend(xs[1..], ys);
    }
  }

  /** Concatenating one more element appends it. */
  lemma ConcatSnoc<T>(xs: seq<seq<T>>, x: seq<T>)
    ensures Concat(xs + [x]) == Concat(xs) + x
  {
    ConcatAppend(xs, [x]);
    assert [x][1..] == [];
    assert x + [] == x;
  }

  lemma {:induction false} SumLenAppend<T>(xs: seq<seq<T>>, ys: seq<seq<T>>)
    ensures SumLen(xs + ys) == SumLen(xs) + SumLen(ys)
  {
    if xs == [] {
      assert xs + ys == ys;
    } else {
      assert (xs + ys)[1..] == xs[1..] + ys;
      SumLenAppend(xs[1..], ys);
    }
  }

  lemma SumLenSingle<T>(x: seq<T>)
    ensures SumLen([x]) == |x|
  {
    assert [x][1..] == [];
  }

  lemma LastOfSlice<T>(s: seq<T>, i: nat, j: nat)
    requires i < j <= |s|
    ensures s[i..j] != [] && Last(s[i..j]) == s[j - 1]
  {
  }

  lemma AppendAssoc3<T>(a: seq<T>, b: seq<T>, c: seq<T>)
    ensures a + b + c == a + (b + c)
  {
  }

  lemma AppendAssoc<T>(a: seq<T>, b: seq<T>, c: seq<T>, d: seq<T>)
    ensures a + b + c + d == a + (b + c + d)
  {
  }

  /** Two adjacent slices of `s` make up the slice that spans both. */
  lemma SliceJoin<T>(s: seq<T>, i: nat, j: nat, k: nat)
    requires i <= j <= k <= |s|
    ensures s[i..j] + s[j..k] == s[i..k]
  {
  }

  /** `f` applied to every element of `s`, in order. */
  function Map<A, B>(f: A -> B, s: seq<A>): (r: seq<B>)
    ensures |r| == |s|
  {
    if s == [] then [] else Map(f, s[..|s| - 1]) + [f(Last(s))]
  }

  lemma {:induction false} MapIndex<A, B>(f: A -> B, s: seq<A>, i: nat)
    requires i < |s|
    ensures Map(f, s)[i] == f(s[i])
    decreases |s|
  {
    if i < |s| - 1 {
      MapIndex(f, s[..|s| - 1], i);
    }
  }

  lemma MapEach<A, B>(f: A -> B, s: seq<A>)
    ensures forall i | 0 <= i < |s| :: Map(f, s)[i] == f(s[i])
  {
    forall i | 0 <= i < |s| ensures Map(f, s)[i] == f(s[i]) {
      MapIndex(f, s, i);
    }
  }

  lemma {:induction false} MapAppend<A, B>(f: A -> B, a: seq<A>, b: seq<A>)
    ensures Map(f, a + b) == Map(f, a) + Map(f, b)
    decreases |b|
  {
    if b == [] {
      assert a + b == a;
    } else {
      var b' := b[..|b| - 1];
      assert (a + b)[..|a + b| - 1] == a + b';
      MapAppend(f, a, b');
    }
  }

  /** Mapping one more element appends its image. */
  lemma MapSnoc<A, B>(f: A -> B, s: seq<A>, k: nat)
    requires k < |s|
    ensures Map(f, s[..k + 1]) == Map(f, s[..k]) + [f(s[k])]
  {
    assert s[..k + 1][..k] == s[..k];
  }

  /** `[f(x) for x in xs if f(x)]`: the non-empty images of the elements, in order. */
  function MapNonEmpty<A, B>(f: A -> seq<B>, xs: seq<A>): seq<seq<B>>
  {
    if xs == [] then []
    else MapNonEmpty(f, xs[..|xs| - 1]) + (if f(Last(xs)) != [] then [f(Last(xs))] else [])
  }

  /** When no image is empty, nothing is filtered out. */
  lemma {:induction false} MapNonEmptyKeepsAll<A, B>(f: A -> seq<B>, xs: seq<A>)
    requires forall k | 0 <= k < |xs| :: f(xs[k]) != []
    ensures MapNonEmpty(f, xs) == Map(f, xs)
  {
    if xs != [] {
      MapNonEmptyKeepsAll(f, xs[..|xs| - 1]);
    }
  }

  /** Every element kept is non-empty and has each property that all non-empty images have. */
  lemma {:induction false} MapNonEmptyHolds<A, B>(f: A -> seq<B>, xs: seq<A>, P: seq<B> -> bool)
    requires forall k | 0 <= k < |xs| :: f(xs[k]) != [] ==> P(f(xs[k]))
    ensures forall y <- MapNonEmpty(f, xs) :: y != [] && P(y)
  {
    if xs != [] {
      MapNonEmptyHolds(f, xs[..|xs| - 1], P);
    }
  }
}
