/** Slash-separated names: joining components and taking a name apart again. */
module Paths {

  type Path = seq<string>

  predicate ValidName(name: string) {
    name != "" && name != "." && name != ".." && '/' !in name
  }

  predicate ValidPath(p: Path) {
    forall i :: 0 <= i < |p| ==> ValidName(p[i])
  }

  function Joined(p: Path): string {
    if |p| == 0 then "" else if |p| == 1 then p[0] else p[0] + "/" + Joined(p[1..])
  }

  function FirstSlash(s: string): (k: nat)
    ensures k <= |s| && '/' !in s[..k] && (k < |s| ==> s[k] == '/')
  {
    if s == "" || s[0] == '/' then 0 else 1 + FirstSlash(s[1..])
  }

  /** The components of a cleaned name: empty ones and "." are dropped. */
  function Components(s: string): Path {
    if s == "" then []
    else if s[0] == '/' then Components(s[1..])
    else
      var k := FirstSlash(s);
      var rest := Components(s[k..]);
      if s[..k] == "." then rest else [s[..k]] + rest
  }

  lemma {:induction false} FirstSlashAt(name: string, rest: string)
    requires '/' !in name && (rest == "" || rest[0] == '/')
    ensures FirstSlash(name + rest) == |name|
  {
    if name == "" {
      assert name + rest == rest;
    } else {
      FirstSlashAt(name[1..], rest);
      assert (name + rest)[1..] == name[1..] + rest;
    }
  }

  lemma FirstComponent(name: string, rest: string)
    requires ValidName(name) && (rest == "" || rest[0] == '/')
    ensures Components(name + rest) == [name] + Components(rest)
  {
    FirstSlashAt(name, rest);
    assert (name + rest)[..|name|] == name && (name + rest)[|name|..] == rest;
    assert (name + rest)[0] == name[0] && name[0] in name;
  }

  lemma LeadingSlash(s: string)
    ensures Components("/" + s) == Components(s)
  {
    assert ("/" + s)[1..] == s;
  }

  lemma JoinedStep(p: Path, tail: string)
    requires p != []
    ensures Joined(p) + tail == p[0] + (if |p| == 1 then tail else "/" + (Joined(p[1..]) + tail))
  {
  }

  /** A joined path, with or without a slash at the end, falls apart into the same components. */
  lemma {:induction false} SplitJoined(p: Path, tail: string)
    requires ValidPath(p) && (tail == "" || tail == "/")
    ensures Components(Joined(p) + tail) == p
  {
    if |p| == 0 {
      assert Joined(p) + tail == tail;
      LeadingSlash("");
      assert tail == "/" ==> tail == "/" + "";
    } else {
      var rest := p[1..];
      SplitJoined(rest, tail);
      JoinedStep(p, tail);
      var after := if |p| == 1 then tail else "/" + (Joined(rest) + tail);
      LeadingSlash(Joined(rest) + tail);
      assert |p| == 1 ==> Joined(rest) + tail == tail;
      FirstComponent(p[0], after);
      assert Components(after) == rest;
      assert p == [p[0]] + rest;
    }
  }

  /** Everything up to the last slash. */
  function DirPart(s: string): string {
    if s == "" then "" else if s[|s| - 1] == '/' then s[..|s| - 1] else DirPart(s[..|s| - 1])
  }

  lemma {:induction false} FirstSlashInFront(a: string, rest: string)
    requires rest != "" && rest[0] == '/'
    ensures FirstSlash(a + rest) == FirstSlash(a)
  {
    if a == "" {
      assert a + rest == rest;
    } else if a[0] != '/' {
      FirstSlashInFront(a[1..], rest);
      assert (a + rest)[1..] == a[1..] + rest;
    }
  }

  /** A slash separates: what is before it and what is after it fall apart on their own. */
  lemma {:induction false} ComponentsSplit(a: string, b: string)
    ensures Components(a + "/" + b) == Components(a) + Components(b)
    decreases |a|
  {
    var s := a + "/" + b;
    if a == "" {
      assert s[1..] == b;
    } else if a[0] == '/' {
      assert s[1..] == a[1..] + "/" + b;
      ComponentsSplit(a[1..], b);
    } else {
      var k := FirstSlash(a);
      FirstSlashInFront(a, "/" + b);
      assert s == a + ("/" + b);
      assert s[..k] == a[..k] && s[k..] == a[k..] + "/" + b;
      ComponentsSplit(a[k..], b);
    }
  }

  /** A single name stands for itself, nothing and a dot for nothing. With `ComponentsSplit` this says what all names stand for. */
  lemma ComponentsOfName(name: string)
    requires '/' !in name
    ensures Components(name) == if name == "" || name == "." then [] else [name]
  {
    if name != "" {
      assert name[0] in name;
      FirstSlashAt(name, "");
      assert name + "" == name;
    }
  }
}
