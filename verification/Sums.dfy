/** Sums over a list do not depend on its order, and smaller sets have fewer elements. */
module Sums {

  function SumOver<T>(f: T -> nat, s: seq<T>): nat {
    if s == [] then 0 else SumOver(f, s[..|s| - 1]) + f(s[|s| - 1])
  }

  lemma {:induction false} SumSplits<T>(f: T -> nat, a: seq<T>, b: seq<T>)
    ensures SumOver(f, a + b) == SumOver(f, a) + SumOver(f, b)
  {
    if b == [] {
      assert a + b == a;
    } else {
      SumSplits(f, a, b[..|b| - 1]);
      assert (a + b)[..|a + b| - 1] == a + b[..|b| - 1];
    }
  }

  lemma SumCut<T>(f: T -> nat, s: seq<T>, i: nat)
    requires i <= |s|
    ensures SumOver(f, s) == SumOver(f, s[..i]) + SumOver(f, s[i..])
  {
    SumSplits(f, s[..i], s[i..]);
    assert s[..i] + s[i..] == s;
  }

  lemma SumHead<T>(f: T -> nat, s: seq<T>)
    requires s != []
    ensures SumOver(f, s) == f(s[0]) + SumOver(f, s[1..])
  {
    SumCut(f, s, 1);
    assert s[..1][..0] == [];
  }

  lemma MultisetWithout<T>(s: seq<T>, i: nat)
    requires i < |s|
    ensures multiset(s) == multiset(s[..i] + s[i + 1..]) + multiset{s[i]}
  {
    assert s == s[..i] + [s[i]] + s[i + 1..];
  }

  /** Taking one occurrence out of a list. */
  lemma SumWithout<T>(f: T -> nat, s: seq<T>, i: nat)
    requires i < |s|
    ensures SumOver(f, s) == SumOver(f, s[..i] + s[i + 1..]) + f(s[i])
  {
    SumCut(f, s, i);
    SumHead(f, s[i..]);
    assert s[i..][1..] == s[i + 1..];
    SumSplits(f, s[..i], s[i + 1..]);
  }

  lemma {:induction false} SumIsOrderFree<T>(f: T -> nat, a: seq<T>, b: seq<T>)
    requires multiset(a) == multiset(b)
    ensures SumOver(f, a) == SumOver(f, b)
    decreases |a|
  {
    if a == [] {
      assert |multiset(b)| == |b|;
    } else {
      assert a[0] in multiset(b);
      var i :| 0 <= i < |b| && b[i] == a[0];
      var b' := b[..i] + b[i + 1..];
      SumHead(f, a);
      SumWithout(f, b, i);
      MultisetWithout(b, i);
      assert multiset(a[1..]) == multiset(a) - multiset{a[0]} by {
        assert a == [a[0]] + a[1..];
      }
      SumIsOrderFree(f, a[1..], b');
    }
  }

  lemma {:induction false} SumBelow<T>(f: T -> nat, g: T -> nat, s: seq<T>)
    requires forall x :: x in s ==> f(x) <= g(x)
    ensures SumOver(f, s) <= SumOver(g, s)
  {
    if s != [] {
      SumBelow(f, g, s[..|s| - 1]);
    }
  }

  lemma {:induction false} SumStrictlyBelow<T>(f: T -> nat, g: T -> nat, s: seq<T>, y: T)
    requires forall x :: x in s ==> f(x) <= g(x)
    requires y in s && f(y) < g(y)
    ensures SumOver(f, s) < SumOver(g, s)
  {
    var n := |s| - 1;
    SumBelow(f, g, s[..n]);
    if s[n] != y {
      SumStrictlyBelow(f, g, s[..n], y);
    }
  }

  lemma {:induction false} SumBounded<T>(f: T -> nat, s: seq<T>, bound: nat)
    requires forall x :: x in s ==> f(x) <= bound
    ensures SumOver(f, s) <= bound * |s|
  {
    if s != [] {
      SumBounded(f, s[..|s| - 1], bound);
    }
  }

  /** Replacing one element changes the sum by the difference. */
  lemma SumReplaced<T>(f: T -> nat, s: seq<T>, i: nat, x: T)
    requires i < |s|
    ensures SumOver(f, s[i := x]) + f(s[i]) == SumOver(f, s) + f(x)
  {
    var r := s[i := x];
    SumCut(f, s, i);
    SumCut(f, r, i);
    SumHead(f, s[i..]);
    SumHead(f, r[i..]);
    assert r[..i] == s[..i] && r[i..][1..] == s[i..][1..];
  }

  lemma {:induction false} SubsetSize<T>(a: set<T>, b: set<T>)
    requires a <= b
    ensures |a| <= |b|
  {
    if x :| x in a {
      SubsetSize(a - {x}, b - {x});
    }
  }
}
