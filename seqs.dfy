/** Sequence helpers used by several models: filtering, flattening and duplicates. */
module Seqs {

  /** The elements of `s` satisfying `p`, in their original order, as a Python list
      comprehension `[x for x in s if p(x)]` computes them. */
  function Filter<T>(s: seq<T>, p: T -> bool): (r: seq<T>)
    ensures |r| <= |s|
    ensures forall i :: 0 <= i < |r| ==> r[i] in s && p(r[i])
    ensures forall i :: 0 <= i < |s| && p(s[i]) ==> s[i] in r
    decreases |s|
  {
    if s == [] then []
    else
      var init, last := s[..|s| - 1], s[|s| - 1];
      assert s == init + [last];
      Filter(init, p) + (if p(last) then [last] else [])
  }

  /** Filtering distributes over concatenation, so it keeps the input order. */
  lemma {:induction false} FilterConcat<T>(a: seq<T>, b: seq<T>, p: T -> bool)
    ensures Filter(a + b, p) == Filter(a, p) + Filter(b, p)
    decreases |b|
  {
    if b == [] {
      assert a + b == a;
    } else {
      var init, last := b[..|b| - 1], b[|b| - 1];
      assert (a + b)[..|a + b| - 1] == a + init;
      assert (a + b)[|a + b| - 1] == last;
      FilterConcat(a, init, p);
    }
  }

  /** Filtering a single element keeps it exactly when it satisfies the predicate. */
  lemma FilterSingle<T>(x: T, p: T -> bool)
    ensures Filter([x], p) == if p(x) then [x] else []
  {
    assert [x][..0] == [];
  }

  /** Filtering around one element. */
  lemma FilterAround<T>(a: seq<T>, x: T, b: seq<T>, p: T -> bool)
    ensures Filter(a + [x] + b, p) == Filter(a, p) + (if p(x) then [x] else []) + Filter(b, p)
  {
    FilterConcat(a + [x], b, p);
    FilterConcat(a, [x], p);
    FilterSingle(x, p);
  }

  /** Filtering with a predicate that holds of no element leaves nothing. */
  lemma {:induction false} FilterNone<T>(s: seq<T>, p: T -> bool)
    requires forall i :: 0 <= i < |s| ==> !p(s[i])
    ensures Filter(s, p) == []
    decreases |s|
  {
    if s != [] {
      FilterNone(s[..|s| - 1], p);
    }
  }

  /** Filtering with a predicate that holds of every element changes nothing. */
  lemma {:induction false} FilterAll<T>(s: seq<T>, p: T -> bool)
    requires forall i :: 0 <= i < |s| ==> p(s[i])
    ensures Filter(s, p) == s
    decreases |s|
  {
    if s != [] {
      var init := s[..|s| - 1];
      FilterAll(init, p);
      assert s == init + [s[|s| - 1]];
    }
  }

  lemma ConcatAssociates<T>(a: seq<T>, b: seq<T>, c: seq<T>)
    ensures (a + b) + c == a + (b + c)
  {
  }

  /** The concatenation of a sequence of sequences. */
  function Flatten<T>(ss: seq<seq<T>>): (r: seq<T>)
    decreases |ss|
  {
    if ss == [] then [] else ss[0] + Flatten(ss[1..])
  }

  lemma {:induction false} FlattenConcat<T>(a: seq<seq<T>>, b: seq<seq<T>>)
    ensures Flatten(a + b) == Flatten(a) + Flatten(b)
    decreases |a|
  {
    if a == [] {
      assert a + b == b;
    } else {
      assert (a + b)[1..] == a[1..] + b;
      FlattenConcat(a[1..], b);
    }
  }

  /** The concatenation of `f(x)` for the elements `x` of `xs`, in order. */
  function FlatMap<A, B>(xs: seq<A>, f: A -> seq<B>): seq<B>
    decreases |xs|
  {
    if xs == [] then [] else FlatMap(xs[..|xs| - 1], f) + f(xs[|xs| - 1])
  }

  lemma {:induction false} FlatMapConcat<A, B>(a: seq<A>, b: seq<A>, f: A -> seq<B>)
    ensures FlatMap(a + b, f) == FlatMap(a, f) + FlatMap(b, f)
    decreases |b|
  {
    if b == [] {
      assert a + b == a;
    } else {
      var init := b[..|b| - 1];
      assert (a + b)[..|a + b| - 1] == a + init;
      assert (a + b)[|a + b| - 1] == b[|b| - 1];
      FlatMapConcat(a, init, f);
    }
  }

  /** The set of elements of `s`, what Python's `set(s)` builds. */
  function Elements<T>(s: seq<T>): set<T>
  {
    set x | x in s
  }

  /** Some value occurs at two different positions of `s`. */
  ghost predicate HasDuplicates<T>(s: seq<T>)
  {
    exists i, j :: 0 <= i < j < |s| && s[i] == s[j]
  }

  /** `len(set(s)) != len(s)` is exactly "s has a duplicate". */
  lemma {:induction false} ElementsCardinality<T>(s: seq<T>)
    ensures |Elements(s)| <= |s|
    ensures |Elements(s)| == |s| <==> !HasDuplicates(s)
    decreases |s|
  {
    if s != [] {
      var tail := s[1..];
      ElementsCardinality(tail);
      assert Elements(s) == {s[0]} + Elements(tail);
      if s[0] in tail {
        var k :| 0 <= k < |tail| && tail[k] == s[0];
        assert s[0] == s[k + 1];
        assert Elements(s) == Elements(tail);
      } else {
        assert s[0] !in Elements(tail);
        if HasDuplicates(tail) {
          var i, j :| 0 <= i < j < |tail| && tail[i] == tail[j];
          assert s[i + 1] == s[j + 1];
        }
        if HasDuplicates(s) {
          var i, j :| 0 <= i < j < |s| && s[i] == s[j];
          assert i > 0;
          assert tail[i - 1] == tail[j - 1];
        }
      }
    }
  }

  /** Appending a new value to a sequence without duplicates leaves it without duplicates. */
  lemma NoDuplicatesSnoc<T>(s: seq<T>, x: T)
    requires !HasDuplicates(s) && x !in s
    ensures !HasDuplicates(s + [x])
  {
    var t := s + [x];
    forall i, j | 0 <= i < j < |t|
      ensures t[i] != t[j]
    {
      assert t[i] == s[i];
      if j < |s| {
        assert t[j] == s[j];
      }
    }
  }

  /** A subset is no larger than its superset. */
  lemma SubsetCardinality<T>(a: set<T>, b: set<T>)
    requires a <= b
    ensures |a| <= |b|
  {
    assert a * b == a;
    assert |b| == |b - a| + |b * a|;
  }
}
