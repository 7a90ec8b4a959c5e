/** Sequence helpers shared by the note-window and pagination models. */
module Seqs {
  import opened Wrappers

  /** `xs` is an order-preserving sub-list of `ys` (greedy match from the front). */
  predicate Subsequence<T(==)>(xs: seq<T>, ys: seq<T>)
    decreases |ys|
  {
    if xs == [] then true
    else if ys == [] then false
    else if xs[0] == ys[0] then Subsequence(xs[1..], ys[1..])
    else Subsequence(xs, ys[1..])
  }

  /** Swift's `filter`: the elements of `s` satisfying `f`, in order. */
  function Filter<T>(f: T -> bool, s: seq<T>): (r: seq<T>)
    ensures |r| <= |s|
    ensures forall x :: x in r ==> x in s && f(x)
    ensures forall i :: 0 <= i < |s| && f(s[i]) ==> s[i] in r
    decreases s
  {
    if s == [] then []
    else (if f(s[0]) then [s[0]] else []) + Filter(f, s[1..])
  }

  lemma {:induction false} FilterAppend<T>(f: T -> bool, a: seq<T>, b: seq<T>)
    ensures Filter(f, a + b) == Filter(f, a) + Filter(f, b)
    decreases a
  {
    if a == [] {
      assert a + b == b;
    } else {
      assert (a + b)[1..] == a[1..] + b;
      FilterAppend(f, a[1..], b);
    }
  }

  /** The filter keeps every copy of a kept element and no copy of a dropped one. */
  lemma {:induction false} FilterMultiset<T>(f: T -> bool, s: seq<T>)
    ensures forall x :: multiset(Filter(f, s))[x] == if f(x) then multiset(s)[x] else 0
    decreases s
  {
    if s != [] {
      FilterMultiset(f, s[1..]);
      var head: seq<T> := if f(s[0]) then [s[0]] else [];
      assert s == [s[0]] + s[1..];
      assert multiset(s) == multiset([s[0]]) + multiset(s[1..]);
      assert Filter(f, s) == head + Filter(f, s[1..]);
      assert multiset(Filter(f, s)) == multiset(head) + multiset(Filter(f, s[1..]));
    }
  }

  lemma {:induction false} FilterIsSubsequence<T>(f: T -> bool, s: seq<T>)
    ensures Subsequence(Filter(f, s), s)
    decreases s
  {
    if s != [] {
      FilterIsSubsequence(f, s[1..]);
      var rest := Filter(f, s[1..]);
      if f(s[0]) {
        assert Filter(f, s) == [s[0]] + rest;
        assert ([s[0]] + rest)[1..] == rest;
      } else {
        assert Filter(f, s) == rest;
        if rest != [] {
          assert rest[0] in rest;
        }
      }
    }
  }

  lemma {:induction false} SubsequenceExtendRight<T>(xs: seq<T>, ys: seq<T>, y: T)
    requires Subsequence(xs, ys)
    ensures Subsequence(xs, ys + [y])
    decreases |ys|
  {
    if xs != [] {
      assert ys != [];
      assert (ys + [y])[0] == ys[0];
      assert (ys + [y])[1..] == ys[1..] + [y];
      if xs[0] == ys[0] {
        SubsequenceExtendRight(xs[1..], ys[1..], y);
      } else {
        SubsequenceExtendRight(xs, ys[1..], y);
      }
    }
  }

  lemma {:induction false} SubsequenceSingletonLast<T>(zs: seq<T>, y: T)
    ensures Subsequence([y], zs + [y])
    decreases |zs|
  {
    if zs == [] {
      assert [y][1..] == [];
    } else {
      assert (zs + [y])[1..] == zs[1..] + [y];
      if zs[0] == y {
        assert [y][1..] == [];
      } else {
        SubsequenceSingletonLast(zs[1..], y);
      }
    }
  }

  lemma {:induction false} SubsequenceAppendBoth<T>(xs: seq<T>, ys: seq<T>, y: T)
    requires Subsequence(xs, ys)
    ensures Subsequence(xs + [y], ys + [y])
    decreases |ys|
  {
    if xs == [] {
      assert xs + [y] == [y];
      SubsequenceSingletonLast(ys, y);
    } else {
      assert ys != [];
      assert (xs + [y])[0] == xs[0];
      assert (ys + [y])[0] == ys[0];
      assert (ys + [y])[1..] == ys[1..] + [y];
      if xs[0] == ys[0] {
        assert (xs + [y])[1..] == xs[1..] + [y];
        SubsequenceAppendBoth(xs[1..], ys[1..], y);
      } else {
        SubsequenceAppendBoth(xs, ys[1..], y);
      }
    }
  }

  /** Concatenation of a list of lists (Swift's `flatMap` / `joined`), built from the back. */
  function Flatten<T>(ss: seq<seq<T>>): (r: seq<T>)
    decreases |ss|
  {
    if ss == [] then [] else Flatten(ss[..|ss| - 1]) + ss[|ss| - 1]
  }

  lemma {:induction false} FlattenAppend<T>(ss: seq<seq<T>>, s: seq<T>)
    ensures Flatten(ss + [s]) == Flatten(ss) + s
  {
    assert (ss + [s])[..|ss|] == ss;
  }

  lemma {:induction false} FlattenMembership<T>(ss: seq<seq<T>>, x: T)
    ensures x in Flatten(ss) <==> exists i :: 0 <= i < |ss| && x in ss[i]
    decreases |ss|
  {
    if ss != [] {
      var init := ss[..|ss| - 1];
      FlattenMembership(init, x);
      assert forall i :: 0 <= i < |init| ==> init[i] == ss[i];
      if x in ss[|ss| - 1] {
        assert x in Flatten(ss);
      }
      if exists i :: 0 <= i < |ss| && x in ss[i] {
        var i :| 0 <= i < |ss| && x in ss[i];
        if i < |ss| - 1 {
          assert x in init[i];
        }
      }
    }
  }

  /** A sub-list holds only elements of the list. */
  lemma {:induction false} SubsequenceMembers<T>(xs: seq<T>, ys: seq<T>, x: T)
    requires Subsequence(xs, ys) && x in xs
    ensures x in ys
    decreases |ys|
  {
    if xs[0] == ys[0] {
      if x != xs[0] {
        assert x in xs[1..];
        SubsequenceMembers(xs[1..], ys[1..], x);
      }
    } else {
      SubsequenceMembers(xs, ys[1..], x);
    }
  }

  /** Swift's `firstIndex(of:)`. */
  function FirstIndexOf<T(==)>(s: seq<T>, x: T): (r: Option<nat>)
    ensures r.Some? ==> r.value < |s| && s[r.value] == x && forall j :: 0 <= j < r.value ==> s[j] != x
    ensures r.None? <==> x !in s
    decreases |s|
  {
    if s == [] then None
    else if s[0] == x then Some(0)
    else match FirstIndexOf(s[1..], x)
      case Some(i) => Some(i + 1)
      case None => None
  }

  /** Sum of a list of reals (Swift's `reduce(0, +)`). */
  function Sum(xs: seq<real>): real
    decreases |xs|
  {
    if xs == [] then 0.0 else Sum(xs[..|xs| - 1]) + xs[|xs| - 1]
  }

  lemma {:induction false} SumOfConstant(xs: seq<real>, w: real)
    requires forall i :: 0 <= i < |xs| ==> xs[i] == w
    ensures Sum(xs) == |xs| as real * w
    decreases |xs|
  {
    if xs != [] {
      SumOfConstant(xs[..|xs| - 1], w);
    }
  }
}
