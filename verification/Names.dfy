/** File names in the order the file system lists them, and the white space around a line. */
module Names {

  // ---------- Order ----------

  /** Byte-wise lexicographic order, a proper prefix first. */
  predicate Before(a: string, b: string) {
    if b == "" then false
    else if a == "" then true
    else if a[0] == b[0] then Before(a[1..], b[1..])
    else a[0] < b[0]
  }

  lemma {:induction false} BeforeIsStrict(a: string, b: string)
    requires Before(a, b)
    ensures a != b && !Before(b, a)
  {
    if a != "" && a[0] == b[0] {
      BeforeIsStrict(a[1..], b[1..]);
    }
  }

  lemma {:induction false} BeforeIsTotal(a: string, b: string)
    ensures a == b || Before(a, b) || Before(b, a)
  {
    if a != "" && b != "" && a[0] == b[0] {
      BeforeIsTotal(a[1..], b[1..]);
      assert a[1..] == b[1..] ==> a == [a[0]] + a[1..] == [b[0]] + b[1..] == b;
    }
  }

  lemma {:induction false} BeforeIsTransitive(a: string, b: string, c: string)
    requires Before(a, b) && Before(b, c)
    ensures Before(a, c)
  {
    if a != "" && a[0] == b[0] == c[0] {
      BeforeIsTransitive(a[1..], b[1..], c[1..]);
    }
  }

  /** A proper prefix comes first; otherwise the first difference decides. */
  ghost predicate Earlier(a: string, b: string) {
    (|a| < |b| && a <= b) || exists k :: 0 <= k < |a| && k < |b| && a[..k] == b[..k] && a[k] < b[k]
  }

  lemma {:induction false} BeforeExactly(a: string, b: string)
    ensures Before(a, b) <==> Earlier(a, b)
  {
    if a != "" && b != "" {
      if a[0] == b[0] {
        BeforeExactly(a[1..], b[1..]);
        EarlierTail(a, b);
      } else if a[0] < b[0] {
        assert a[..0] == b[..0];
      } else if k :| 0 <= k < |a| && k < |b| && a[..k] == b[..k] && a[k] < b[k] {
        assert k > 0 ==> a[..k][0] == b[..k][0];
      }
    }
  }

  lemma EarlierTail(a: string, b: string)
    requires a != "" && b != "" && a[0] == b[0]
    ensures Earlier(a, b) <==> Earlier(a[1..], b[1..])
  {
    assert a == [a[0]] + a[1..] && b == [b[0]] + b[1..];
    if k :| 0 <= k < |a| && k < |b| && a[..k] == b[..k] && a[k] < b[k] {
      assert k > 0 && a[1..][..k - 1] == a[..k][1..] && b[1..][..k - 1] == b[..k][1..];
      assert a[1..][k - 1] < b[1..][k - 1];
    }
    if k :| 0 <= k < |a[1..]| && k < |b[1..]| && a[1..][..k] == b[1..][..k] && a[1..][k] < b[1..][k] {
      assert a[..k + 1] == [a[0]] + a[1..][..k] && b[..k + 1] == [b[0]] + b[1..][..k];
      assert a[k + 1] < b[k + 1];
    }
  }

  ghost predicate Sorted(names: seq<string>) {
    forall i, j :: 0 <= i < j < |names| ==> Before(names[i], names[j])
  }

  /** A directory listing: every name once, in order. */
  ghost predicate Listing(names: seq<string>, tops: set<string>) {
    Sorted(names) && forall n :: n in names <==> n in tops
  }

  method Insert(names: seq<string>, name: string) returns (r: seq<string>)
    requires Sorted(names) && name !in names
    ensures Sorted(r) && forall n :: n in r <==> n == name || n in names
  {
    var k := 0;
    while k < |names| && Before(names[k], name)
      invariant k <= |names|
      invariant forall i :: 0 <= i < k ==> Before(names[i], name)
      decreases |names| - k
    {
      k := k + 1;
    }
    r := names[..k] + [name] + names[k..];
    forall i, j | 0 <= i < j < |r| ensures Before(r[i], r[j]) {
      if i == k {
        BeforeIsTotal(names[k], name);
        if j > k + 1 {
          BeforeIsTransitive(name, names[k], names[j - 1]);
        }
      }
    }
    assert forall n :: n in names ==> n in names[..k] || n in names[k..];
  }

  method Sort(tops: set<string>) returns (names: seq<string>)
    ensures Listing(names, tops)
  {
    names := [];
    var todo := tops;
    while todo != {}
      invariant todo <= tops && Listing(names, tops - todo)
      decreases |todo|
    {
      var n :| n in todo;
      names := Insert(names, n);
      todo := todo - {n};
    }
  }

  // ---------- White space ----------

  predicate IsSpace(c: char) {
    c in {' ', '\t', '\n', '\r', '\U{0B}', '\U{0C}', '\U{85}', '\U{A0}'}
  }

  function TrimLeft(s: string): string {
    if s != "" && IsSpace(s[0]) then TrimLeft(s[1..]) else s
  }

  function TrimRight(s: string): string {
    if s != "" && IsSpace(s[|s| - 1]) then TrimRight(s[..|s| - 1]) else s
  }

  function Trim(s: string): string {
    TrimRight(TrimLeft(s))
  }

  lemma {:induction false} TrimLeftShorter(s: string)
    ensures |TrimLeft(s)| <= |s| && (s != "" && IsSpace(s[0]) ==> |TrimLeft(s)| < |s|)
  {
    if s != "" && IsSpace(s[0]) {
      TrimLeftShorter(s[1..]);
    }
  }

  lemma {:induction false} TrimRightShorter(s: string)
    ensures |TrimRight(s)| <= |s|
  {
    if s != "" && IsSpace(s[|s| - 1]) {
      TrimRightShorter(s[..|s| - 1]);
    }
  }

  /** Writing a trimmed, non-empty line and reading it back trimmed gives the line. */
  lemma LineRoundTrip(line: string)
    requires Trim(line) == line && line != ""
    ensures Trim(line + "\n") == line
  {
    TrimLeftShorter(line);
    TrimRightShorter(TrimLeft(line));
    assert TrimLeft(line) == line;
    assert (line + "\n")[..|line|] == line;
  }

  predicate AllSpace(s: string) {
    forall i :: 0 <= i < |s| ==> IsSpace(s[i])
  }

  lemma {:induction false} TrimLeftExactly(s: string) returns (front: string)
    ensures s == front + TrimLeft(s) && AllSpace(front) && (TrimLeft(s) != "" ==> !IsSpace(TrimLeft(s)[0]))
  {
    front := "";
    if s != "" && IsSpace(s[0]) {
      front := TrimLeftExactly(s[1..]);
      front := [s[0]] + front;
    }
  }

  lemma {:induction false} TrimRightExactly(s: string) returns (back: string)
    ensures s == TrimRight(s) + back && AllSpace(back) && (TrimRight(s) != "" ==> !IsSpace(TrimRight(s)[|TrimRight(s)| - 1]))
  {
    back := "";
    if s != "" && IsSpace(s[|s| - 1]) {
      back := TrimRightExactly(s[..|s| - 1]);
      back := back + [s[|s| - 1]];
    }
  }

  /** Trimming takes white space off both ends, all of it and nothing else. */
  lemma TrimExactly(s: string) returns (front: string, back: string)
    ensures s == front + Trim(s) + back && AllSpace(front) && AllSpace(back)
    ensures Trim(s) != "" ==> !IsSpace(Trim(s)[0]) && !IsSpace(Trim(s)[|Trim(s)| - 1])
  {
    front := TrimLeftExactly(s);
    back := TrimRightExactly(TrimLeft(s));
    assert Trim(s) != "" ==> Trim(s)[0] == TrimLeft(s)[0];
  }
}
