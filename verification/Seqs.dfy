/** Sequence operations shared by every component. */
module Seqs {
  /** What each element contributes, in order. */
  function FlatMap<A, B>(f: A -> seq<B>, xs: seq<A>): seq<B> {
    if xs == [] then [] else f(xs[0]) + FlatMap(f, xs[1..])
  }

  lemma Regroup<A>(a: seq<A>, b: seq<A>, c: seq<A>)
    ensures a + (b + c) == (a + b) + c
  {
  }

  lemma TailConcat<A>(a: seq<A>, b: seq<A>)
    requires a != []
    ensures (a + b)[0] == a[0] && (a + b)[1..] == a[1..] + b
  {
  }

  lemma {:induction false} FlatMapConcat<A, B>(f: A -> seq<B>, xs: seq<A>, ys: seq<A>)
    ensures FlatMap(f, xs + ys) == FlatMap(f, xs) + FlatMap(f, ys)
  {
    if xs == [] {
      assert xs + ys == ys;
    } else {
      assert (xs + ys)[1..] == xs[1..] + ys;
      FlatMapConcat(f, xs[1..], ys);
    }
  }

  lemma FlatMapOne<A, B>(f: A -> seq<B>, x: A)
    ensures FlatMap(f, [x]) == f(x)
  {
    assert FlatMap(f, [x]) == f(x) + [];
  }

  /** One more element at the end of the part already mapped. */
  lemma FlatMapTake<A, B>(f: A -> seq<B>, xs: seq<A>, i: nat)
    requires i < |xs|
    ensures FlatMap(f, xs[..i + 1]) == FlatMap(f, xs[..i]) + f(xs[i])
  {
    assert xs[..i + 1] == xs[..i] + [xs[i]];
    FlatMapConcat(f, xs[..i], [xs[i]]);
    FlatMapOne(f, xs[i]);
  }

  lemma {:induction false} FlatMapMember<A, B>(f: A -> seq<B>, xs: seq<A>, y: B) returns (x: A)
    requires y in FlatMap(f, xs)
    ensures x in xs && y in f(x)
  {
    if y in f(xs[0]) {
      x := xs[0];
    } else {
      x := FlatMapMember(f, xs[1..], y);
    }
  }

  /** Two lists without repetition and with the same members are equal up to order. */
  lemma {:induction false} SameMembers<T>(a: seq<T>, b: seq<T>)
    requires forall i, j :: 0 <= i < j < |a| ==> a[i] != a[j]
    requires forall i, j :: 0 <= i < j < |b| ==> b[i] != b[j]
    requires forall x :: x in a <==> x in b
    ensures multiset(a) == multiset(b)
  {
    forall x | x in a || x in b
      ensures multiset(a)[x] == multiset(b)[x]
    {
      OnlyOnce(a, x);
      OnlyOnce(b, x);
    }
  }

  lemma {:induction false} OnlyOnce<T>(a: seq<T>, x: T)
    requires x in a && forall i, j :: 0 <= i < j < |a| ==> a[i] != a[j]
    ensures multiset(a)[x] == 1
  {
    var k :| 0 <= k < |a| && a[k] == x;
    assert a == a[..k] + [x] + a[k + 1..];
    assert x !in a[..k] && x !in a[k + 1..];
  }

  /** Mapping two lists that are equal up to order gives results equal up to order. */
  lemma {:induction false} FlatMapPermuted<A, B>(f: A -> seq<B>, xs: seq<A>, ys: seq<A>)
    requires multiset(xs) == multiset(ys)
    ensures multiset(FlatMap(f, xs)) == multiset(FlatMap(f, ys))
  {
    if xs == [] {
      assert |multiset(ys)| == 0;
    } else {
      var x := xs[0];
      assert x in multiset(ys);
      var k :| 0 <= k < |ys| && ys[k] == x;
      var rest := ys[..k] + ys[k + 1..];
      RemoveOne(xs, 0);
      RemoveOne(ys, k);
      assert xs[..0] + xs[1..] == xs[1..];
      FlatMapPermuted(f, xs[1..], rest);
      FlatMapWithout(f, ys, k);
      FlatMapWithout(f, xs, 0);
    }
  }

  lemma RemoveOne<A>(s: seq<A>, k: nat)
    requires k < |s|
    ensures multiset(s[..k] + s[k + 1..]) == multiset(s) - multiset{s[k]}
  {
    assert s == s[..k] + [s[k]] + s[k + 1..];
  }

  /** Taking one element out takes out what it contributes. */
  lemma FlatMapWithout<A, B>(f: A -> seq<B>, ys: seq<A>, k: nat)
    requires k < |ys|
    ensures multiset(FlatMap(f, ys)) == multiset(f(ys[k])) + multiset(FlatMap(f, ys[..k] + ys[k + 1..]))
  {
    hide FlatMap;
    var before, after := ys[..k], ys[k + 1..];
    assert ys == (before + [ys[k]]) + after;
    FlatMapConcat(f, before + [ys[k]], after);
    FlatMapConcat(f, before, [ys[k]]);
    FlatMapConcat(f, before, after);
    FlatMapOne(f, ys[k]);
  }

  /** When g contributes nowhere more than f, the two results agree exactly when every
      contribution does. */
  lemma {:induction false} FlatMapSameIff<A, B>(f: A -> seq<B>, g: A -> seq<B>, xs: seq<A>)
    requires forall x <- xs :: |g(x)| <= |f(x)|
    ensures |FlatMap(g, xs)| <= |FlatMap(f, xs)|
    ensures FlatMap(g, xs) == FlatMap(f, xs) <==> forall x <- xs :: g(x) == f(x)
  {
    if xs != [] {
      var x, rest := xs[0], xs[1..];
      FlatMapSameIff(f, g, rest);
      var fs, gs := FlatMap(f, rest), FlatMap(g, rest);
      assert FlatMap(f, xs) == f(x) + fs && FlatMap(g, xs) == g(x) + gs;
      assert forall y <- xs :: y == x || y in rest;
      if FlatMap(g, xs) == FlatMap(f, xs) {
        assert |g(x)| == |f(x)| && |gs| == |fs|;
        SplitEqual(g(x), gs, f(x), fs);
      }
    }
  }

  lemma SplitEqual<A>(a: seq<A>, b: seq<A>, c: seq<A>, d: seq<A>)
    requires a + b == c + d && |a| == |c|
    ensures a == c && b == d
  {
    assert a == (a + b)[..|a|] && c == (c + d)[..|a|];
    assert b == (a + b)[|a|..] && d == (c + d)[|a|..];
  }
}
