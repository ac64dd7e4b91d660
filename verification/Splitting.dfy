/** Taking a string apart at its first or last separator. */
module Splitting {

  lemma FirstNotShorter(sep: char, a: string, b: string, r: string, s: string)
    requires sep !in b && a + [sep] + r == b + [sep] + s
    ensures |a| >= |b|
  {
    var whole := a + [sep] + r;
    assert whole[|a|] == sep;
    forall i | 0 <= i < |b| ensures whole[i] == b[i] && b[i] in b {
      assert (b + [sep] + s)[i] == b[i];
    }
  }

  /** The part before the first separator is determined. */
  lemma SplitFirst(sep: char, a: string, b: string, r: string, s: string)
    requires sep !in a && sep !in b && a + [sep] + r == b + [sep] + s
    ensures a == b && r == s
  {
    FirstNotShorter(sep, a, b, r, s);
    FirstNotShorter(sep, b, a, s, r);
    var whole := a + [sep] + r;
    assert a == whole[..|a|] && r == whole[|a| + 1..];
    assert whole == b + [sep] + s;
    assert b == whole[..|b|] && s == whole[|b| + 1..];
  }

  lemma LastNotLater(sep: char, p: string, q: string, c: string, d: string)
    requires sep !in c && p + [sep] + c == q + [sep] + d
    ensures |p| >= |q|
  {
    var whole := p + [sep] + c;
    assert (q + [sep] + d)[|q|] == sep;
    forall k | |p| < k < |whole| ensures whole[k] in c {
      assert whole[k] == c[k - |p| - 1];
    }
    assert whole == q + [sep] + d;
  }

  /** The part after the last separator is determined. */
  lemma SplitLast(sep: char, p: string, q: string, c: string, d: string)
    requires sep !in c && sep !in d && p + [sep] + c == q + [sep] + d
    ensures p == q && c == d
  {
    LastNotLater(sep, p, q, c, d);
    LastNotLater(sep, q, p, d, c);
    var whole := p + [sep] + c;
    assert p == whole[..|p|] && c == whole[|p| + 1..];
    assert whole == q + [sep] + d;
    assert q == whole[..|q|] && d == whole[|q| + 1..];
  }
}
