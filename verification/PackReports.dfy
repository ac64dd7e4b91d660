/** What unpacking does with single entries, and what it reports: the directories and the number of bytes of the cache. */
module PackReports {
  import opened ApiTypes
  import opened Decimal
  import opened Paths
  import opened Pack
  import opened PackProofs
  import opened Sums

  // ---------- The directory part of a name ----------

  /** What stands before the last slash; nothing if there is none. */
  ghost predicate BeforeLastSlash(s: string, a: string) {
    (exists b :: s == a + "/" + b && '/' !in b) || ('/' !in s && a == "")
  }

  lemma {:induction false} DirPartAfter(a: string, b: string)
    requires '/' !in b
    ensures DirPart(a + "/" + b) == a
  {
    var s := a + "/" + b;
    if b == "" {
      assert s[..|s| - 1] == a;
    } else {
      var rest := b[..|b| - 1];
      assert s[|s| - 1] == b[|b| - 1] && b[|b| - 1] in b;
      assert s[..|s| - 1] == a + "/" + rest;
      DirPartAfter(a, rest);
    }
  }

  lemma {:induction false} DirPartNone(s: string)
    requires '/' !in s
    ensures DirPart(s) == ""
  {
    if s != "" {
      assert s[|s| - 1] in s;
      DirPartNone(s[..|s| - 1]);
    }
  }

  lemma {:induction false} DirPartSplits(s: string)
    requires '/' in s
    ensures exists b :: s == DirPart(s) + "/" + b && '/' !in b
  {
    var n := |s| - 1;
    if s[n] == '/' {
      assert s == s[..n] + "/" + "";
    } else {
      assert s == s[..n] + [s[n]];
      DirPartSplits(s[..n]);
      var b :| s[..n] == DirPart(s[..n]) + "/" + b && '/' !in b;
      assert s == DirPart(s) + "/" + (b + [s[n]]);
    }
  }

  lemma DirPartExactly(s: string, a: string)
    ensures BeforeLastSlash(s, a) <==> a == DirPart(s)
  {
    if '/' in s {
      DirPartSplits(s);
      if b :| s == a + "/" + b && '/' !in b {
        DirPartAfter(a, b);
      }
    } else {
      DirPartNone(s);
    }
  }

  // ---------- One layer ----------

  /** The entry belongs to the cache directory and lies in directory `d` of the target. */
  ghost predicate Reports(to: Target, h: Header, d: Path) {
    && to.fmt.cachePrefix < h.name
    && exists a :: BeforeLastSlash(h.name[|to.fmt.cachePrefix|..], a) && d == to.cacheDir + Components(a)
  }

  /** The bytes of a file of the cache directory. */
  function CacheBytes(to: Target, h: Header): nat {
    if to.fmt.cachePrefix < h.name && h.node.FileNode? then |h.node.content| else 0
  }

  predicate NoneTwice(dirs: seq<Path>) {
    forall i, j :: 0 <= i < j < |dirs| ==> dirs[i] != dirs[j]
  }

  lemma OneReported(to: Target, u: Unpacked, h: Header, v: Unpacked, d: Path)
    requires UnpackOne(to, u, h) == Some(v)
    ensures v.bytes == u.bytes + CacheBytes(to, h)
    ensures d in v.dirs <==> d in u.dirs || Reports(to, h, d)
    ensures NoneTwice(u.dirs) ==> NoneTwice(v.dirs)
  {
    if to.fmt.cachePrefix <= h.name {
      var rel := h.name[|to.fmt.cachePrefix|..];
      forall a ensures BeforeLastSlash(rel, a) <==> a == DirPart(rel) {
        DirPartExactly(rel, a);
      }
      assert rel != "" <==> to.fmt.cachePrefix < h.name;
    }
  }

  ghost predicate AnyReports(to: Target, hs: seq<Header>, d: Path) {
    exists h :: h in hs && Reports(to, h, d)
  }

  function BytesOf(to: Target): Header -> nat {
    h => CacheBytes(to, h)
  }

  lemma {:induction false} AllReported(to: Target, u: Unpacked, hs: seq<Header>, v: Unpacked, d: Path)
    requires UnpackAll(to, u, hs) == Some(v)
    ensures v.bytes == u.bytes + SumOver(BytesOf(to), hs)
    ensures d in v.dirs <==> d in u.dirs || AnyReports(to, hs, d)
    ensures NoneTwice(u.dirs) ==> NoneTwice(v.dirs)
    decreases |hs|
  {
    if hs != [] {
      var next := UnpackOne(to, u, hs[0]).value;
      OneReported(to, u, hs[0], next, d);
      AllReported(to, next, hs[1..], v, d);
      SumHead(BytesOf(to), hs);
      assert hs == [hs[0]] + hs[1..];
    }
  }

  /** The directories and the bytes of a layer are those of its entries of the cache, each directory once. */
  lemma LayerReported(to: Target, disk: Disk, hs: seq<Header>, v: Unpacked)
    requires Unpack(to, disk, hs) == Some(v)
    ensures v.bytes == SumOver(BytesOf(to), hs) && NoneTwice(v.dirs)
    ensures forall d :: d in v.dirs <==> AnyReports(to, hs, d)
  {
    var e := MkdirAll(MkdirAll(disk, to.cacheDir).value, to.manifestDir).value;
    AllReported(to, Unpacked(e, [], 0), hs, v, []);
    forall d ensures d in v.dirs <==> AnyReports(to, hs, d) {
      AllReported(to, Unpacked(e, [], 0), hs, v, d);
    }
  }

  // ---------- Several layers ----------

  ghost predicate SomeLayerReports(to: Target, layers: seq<ImageLayer>, d: Path) {
    exists l :: l in layers && l.compat && AnyReports(to, l.headers, d)
  }

  /** The bytes of a layer of ours; other layers do not count. */
  ghost function LayerBytes(to: Target): ImageLayer -> nat {
    (l: ImageLayer) => if l.compat then SumOver(BytesOf(to), l.headers) else 0
  }

  lemma {:induction false} LayersReported(to: Target, u: Unpacked, layers: seq<ImageLayer>, v: Unpacked, d: Path)
    requires UnpackLayers(to, u, layers) == Some(v)
    ensures v.bytes == u.bytes + SumOver(LayerBytes(to), layers)
    ensures d in v.dirs <==> d in u.dirs || SomeLayerReports(to, layers, d)
    decreases |layers|
  {
    if layers != [] {
      var l := layers[0];
      SumHead(LayerBytes(to), layers);
      assert layers == [l] + layers[1..];
      if l.compat {
        var one := Unpack(to, u.disk, l.headers).value;
        LayerReported(to, u.disk, l.headers, one);
        LayersReported(to, Unpacked(one.disk, u.dirs + one.dirs, u.bytes + one.bytes), layers[1..], v, d);
      } else {
        LayersReported(to, u, layers[1..], v, d);
      }
    }
  }

  /** An image reports the directories of all its layers of ours, and the sum of their bytes. */
  lemma ImageReported(to: Target, disk: Disk, layers: seq<ImageLayer>, v: Unpacked)
    requires UnpackImage(to, disk, layers) == Some(v)
    ensures v.bytes == SumOver(LayerBytes(to), layers)
    ensures forall d :: d in v.dirs <==> SomeLayerReports(to, layers, d)
  {
    LayersReported(to, Unpacked(disk, [], 0), layers, v, []);
    forall d ensures d in v.dirs <==> SomeLayerReports(to, layers, d) {
      LayersReported(to, Unpacked(disk, [], 0), layers, v, d);
    }
  }

  // ---------- The directories of a packed tree ----------

  lemma {:induction false} WalkIsFlat(t: Tree, at: Path, item: Item)
    requires ValidTree(t)
    ensures item in Walk(t, at) <==> item.path in Flat(t, at) && Flat(t, at)[item.path] == item.node
    decreases t, 1
  {
    if t.Dir? {
      WalkKidsAreFlat(t.kids, at, item);
      if item.path in FlatKids(t.kids, at) {
        FlatKidsUnder(t.kids, at, item.path);
      }
    }
  }

  lemma {:induction false} WalkKidsAreFlat(f: Forest, at: Path, item: Item)
    requires ValidForest(f)
    ensures item in WalkKids(f, at) <==> item.path in FlatKids(f, at) && FlatKids(f, at)[item.path] == item.node
    decreases f, 0
  {
    match f
    case Empty =>
    case Kid(name, node, rest) =>
      WalkIsFlat(node, at + [name], item);
      WalkKidsAreFlat(rest, at, item);
      if item.path in FlatKids(rest, at) {
        FlatKidsUnder(rest, at, item.path);
      }
      if item.path in Flat(node, at + [name]) {
        FlatUnder(node, at + [name], item.path);
        assert item.path[|at|] == name;
      }
  }

  lemma {:induction false} JoinedLast(p: Path)
    requires |p| > 1
    ensures Joined(p) == Joined(p[..|p| - 1]) + "/" + p[|p| - 1]
  {
    var front := p[..|p| - 1];
    if |p| > 2 {
      JoinedLast(p[1..]);
      assert p[1..][..|p| - 2] == front[1..];
    } else {
      assert p[1..] == [p[1]];
    }
  }

  /** The directory an item lies in; a directory is listed as itself. */
  function Listed(item: Item): Path
    requires item.path != []
  {
    if item.node.DirNode? then item.path else item.path[..|item.path| - 1]
  }

  /** The name of an item below the prefix ends in a slash for a directory, and in its last component for a file. */
  lemma ListedName(lead: string, item: Item, rel: string)
    requires (lead == "" || lead == "/") && ValidPath(item.path) && item.path != []
    requires rel == lead + Joined(item.path) + (if item.node.DirNode? then "/" else "")
    ensures Components(DirPart(rel)) == Listed(item)
  {
    var p := item.path;
    var last := p[|p| - 1];
    LeadComponents(lead, Listed(item));
    if item.node.DirNode? {
      assert rel == lead + Joined(p) + "/" + "";
      DirPartAfter(lead + Joined(p), "");
    } else if |p| > 1 {
      JoinedLast(p);
      assert rel == (lead + Joined(Listed(item))) + "/" + last;
      DirPartAfter(lead + Joined(Listed(item)), last);
    } else if lead == "/" {
      assert rel == "" + "/" + last;
      DirPartAfter("", last);
    } else {
      assert rel == last;
      DirPartNone(last);
    }
  }

  lemma LeadComponents(lead: string, p: Path)
    requires (lead == "" || lead == "/") && ValidPath(p)
    ensures Components(lead + Joined(p)) == p
  {
    SplitJoined(p, "");
    assert Joined(p) + "" == Joined(p) && lead + Joined(p) == if lead == "" then Joined(p) else "/" + Joined(p);
    LeadingSlash(Joined(p));
  }

  /** What is left of a name after either form of the prefix. */
  lemma NameRest(prefix: string, cache: string, inner: string)
    requires prefix == cache + "/" || prefix == cache
    ensures var name := cache + "/" + inner;
            prefix <= name && name[|prefix|..] == (if prefix == cache then "/" else "") + inner
  {
    AfterPrefix(cache, inner);
    assert "" + inner == inner;
  }

  lemma TailJoins(lead: string, a: string, tail: string)
    ensures lead + (a + tail) == lead + a + tail
  {
  }

  /** The name of a packed item after the prefix. */
  lemma PackedRest(fmt: Format, cache: string, manifest: string, item: Item)
    requires Agrees(fmt, cache, manifest) && item.path != []
    ensures var h := HeaderOf(fmt.cacheTag, item);
            var lead := if fmt.cachePrefix == cache then "/" else "";
            && fmt.cachePrefix <= h.name
            && h.name[|fmt.cachePrefix|..] == lead + Joined(item.path) + (if item.node.DirNode? then "/" else "")
  {
    TagComponents(fmt, cache, manifest);
    PackedName(fmt.cacheTag, cache, item);
    var tail := if item.node.DirNode? then "/" else "";
    NameRest(fmt.cachePrefix, cache, Joined(item.path) + tail);
    TailJoins(cache + "/", Joined(item.path), tail);
    TailJoins(if fmt.cachePrefix == cache then "/" else "", Joined(item.path), tail);
  }

  lemma ItemReports(to: Target, cache: string, manifest: string, item: Item, d: Path)
    requires Agrees(to.fmt, cache, manifest) && ValidPath(item.path) && item.path != []
    ensures Reports(to, HeaderOf(to.fmt.cacheTag, item), d) <==> d == to.cacheDir + Listed(item)
  {
    var h := HeaderOf(to.fmt.cacheTag, item);
    PackedRest(to.fmt, cache, manifest, item);
    var rel := h.name[|to.fmt.cachePrefix|..];
    ListedName(if to.fmt.cachePrefix == cache then "/" else "", item, rel);
    CacheName(to.fmt, cache, manifest, item);
    RestReports(to, h, rel, d);
  }

  lemma RestReports(to: Target, h: Header, rel: string, d: Path)
    requires to.fmt.cachePrefix < h.name && rel == h.name[|to.fmt.cachePrefix|..]
    ensures Reports(to, h, d) <==> d == to.cacheDir + Components(DirPart(rel))
  {
    forall a ensures BeforeLastSlash(rel, a) <==> a == DirPart(rel) {
      DirPartExactly(rel, a);
    }
  }

  lemma ManifestReportsNothing(to: Target, cache: string, manifest: string, content: string, d: Path)
    requires Agrees(to.fmt, cache, manifest)
    ensures !AnyReports(to, HeadersOf(to.fmt.manifestTag, WalkKids(Kid(MANIFEST, File(content), Empty), [])), d)
  {
    assert [] + [MANIFEST] == [MANIFEST];
    assert WalkKids(Kid(MANIFEST, File(content), Empty), []) == [Item([MANIFEST], FileNode(content))];
    ManifestName(to.fmt, cache, manifest, content);
  }

  /** A directory of the tree, or the top if there are files at the top. */
  ghost predicate HasDir(f: Forest, p: Path) {
    if p == [] then exists name :: AtKid(f, [name]).Some? && AtKid(f, [name]).value.File?
    else AtKid(f, p).Some? && AtKid(f, p).value.Dir?
  }

  /** An item of the walk is what following its path finds. */
  lemma WalkIsAt(f: Forest, item: Item)
    requires ValidForest(f)
    ensures item in WalkKids(f, [])
            <==> item.path != [] && AtKid(f, item.path).Some? && NodeOf(AtKid(f, item.path).value) == item.node
  {
    WalkKidsAreFlat(f, [], item);
    if item.path == [] {
      if [] in FlatKids(f, []) {
        FlatKidsUnder(f, [], []);
      }
    } else {
      FlatKidsAreAt(f, [], item.path);
      assert item.path[0..] == item.path;
    }
  }

  /** The parent of a path in the tree is a directory of it. */
  lemma ParentIsDir(f: Forest, p: Path)
    requires ValidForest(f) && p != [] && AtKid(f, p).Some? && AtKid(f, p).value.File?
    ensures HasDir(f, p[..|p| - 1])
  {
    if |p| == 1 {
      assert p == [p[0]];
    } else {
      AtParent(f, p);
    }
  }

  lemma {:induction false} AtParent(f: Forest, p: Path)
    requires |p| > 1 && AtKid(f, p).Some?
    ensures AtKid(f, p[..|p| - 1]).Some? && AtKid(f, p[..|p| - 1]).value.Dir?
    decreases f
  {
    match f
    case Kid(name, node, rest) =>
      var parent := p[..|p| - 1];
      if name != p[0] {
        AtParent(rest, p);
      } else if |p| > 2 {
        assert parent[1..] == p[1..][..|p| - 2];
        AtParent(node.kids, p[1..]);
      } else {
        assert parent[1..] == [];
      }
  }

  lemma ListedIsDir(f: Forest, item: Item)
    requires ValidForest(f) && item in WalkKids(f, [])
    ensures item.path != [] && HasDir(f, Listed(item))
  {
    WalkIsAt(f, item);
    if item.node.FileNode? {
      ParentIsDir(f, item.path);
    }
  }

  lemma DirIsListed(f: Forest, p: Path) returns (item: Item)
    requires ValidForest(f) && HasDir(f, p)
    ensures item in WalkKids(f, []) && item.path != [] && Listed(item) == p
  {
    if p == [] {
      var name :| AtKid(f, [name]).Some? && AtKid(f, [name]).value.File?;
      item := Item([name], NodeOf(AtKid(f, [name]).value));
      assert item.path[..0] == [];
    } else {
      item := Item(p, DirNode);
    }
    WalkIsAt(f, item);
  }

  lemma PackedReports(to: Target, cache: string, manifest: string, f: Forest, content: string, d: Path)
    requires Agrees(to.fmt, cache, manifest) && ValidForest(f)
    ensures AnyReports(to, Layer(to.fmt, f, Kid(MANIFEST, File(content), Empty)), d)
            <==> exists p :: HasDir(f, p) && d == to.cacheDir + p
  {
    var items := WalkKids(f, []);
    var hs := HeadersOf(to.fmt.cacheTag, items);
    WalkKidsAreValid(f, []);
    ManifestReportsNothing(to, cache, manifest, content, d);
    if h :| h in hs && Reports(to, h, d) {
      var i :| 0 <= i < |hs| && hs[i] == h;
      assert items[i] in items;
      ListedIsDir(f, items[i]);
      ItemReports(to, cache, manifest, items[i], d);
    }
    if p :| HasDir(f, p) && d == to.cacheDir + p {
      var item := DirIsListed(f, p);
      var i :| 0 <= i < |items| && items[i] == item;
      ItemReports(to, cache, manifest, item, d);
      assert hs[i] in hs;
    }
  }

  /**
   * The directories reported after a round trip are exactly those of the packed tree, each once. The top counts among them
   * only if files lie at the top.
   */
  lemma RoundTripDirs(to: Target, cache: string, manifest: string, disk: Disk, f: Forest, content: string, v: Unpacked)
    requires Agrees(to.fmt, cache, manifest) && ValidForest(f)
    requires Unpack(to, disk, Layer(to.fmt, f, Kid(MANIFEST, File(content), Empty))) == Some(v)
    ensures NoneTwice(v.dirs) && forall d :: d in v.dirs <==> exists p :: HasDir(f, p) && d == to.cacheDir + p
  {
    var hs := Layer(to.fmt, f, Kid(MANIFEST, File(content), Empty));
    LayerReported(to, disk, hs, v);
    forall d ensures d in v.dirs <==> exists p :: HasDir(f, p) && d == to.cacheDir + p {
      PackedReports(to, cache, manifest, f, content, d);
    }
  }

  // ---------- What one entry does to the disk ----------

  /** A prefix of the path, or the path itself, is a file. */
  ghost predicate FileOnTheWay(disk: Disk, p: Path) {
    exists k :: 1 <= k <= |p| && p[..k] in disk && disk[p[..k]].FileNode?
  }

  predicate LeadsTo(q: Path, p: Path) {
    q != [] && q <= p
  }

  /** Directories are made where nothing was, along the path, and everything else is as before. */
  ghost predicate MadeAlong(before: Disk, disk: Disk, p: Path) {
    && (forall q :: q in disk <==> q in before || LeadsTo(q, p))
    && (forall q :: q in before ==> disk[q] == before[q])
    && (forall q :: q in disk && q !in before ==> disk[q] == DirNode)
  }

  lemma PrefixOfParent(p: Path, q: Path)
    requires p != []
    ensures LeadsTo(q, p) <==> q == p || LeadsTo(q, p[..|p| - 1])
  {
    if q <= p && q != p {
      assert q == p[..|q|] == p[..|p| - 1][..|q|];
    }
  }

  lemma WayOfParent(disk: Disk, p: Path)
    requires p != []
    ensures FileOnTheWay(disk, p) <==> FileOnTheWay(disk, p[..|p| - 1]) || (p in disk && disk[p].FileNode?)
  {
    var parent := p[..|p| - 1];
    assert forall k :: 1 <= k <= |parent| ==> parent[..k] == p[..k];
    assert p[..|p|] == p;
  }

  /** Making a directory with its parents fails exactly when a file is in the way, and else makes what is missing. */
  lemma {:induction false} MkdirExactly(disk: Disk, p: Path)
    ensures MkdirAll(disk, p).None? <==> FileOnTheWay(disk, p)
    ensures MkdirAll(disk, p).Some? ==> MadeAlong(disk, MkdirAll(disk, p).value, p)
  {
    if p != [] {
      var parent := p[..|p| - 1];
      MkdirExactly(disk, parent);
      WayOfParent(disk, p);
      forall q ensures LeadsTo(q, p) <==> q == p || LeadsTo(q, parent) {
        PrefixOfParent(p, q);
      }
      assert !LeadsTo(p, parent);
    }
  }

  /** The node is at its place, with its parents made, and everything else is as before. */
  ghost predicate IsPut(before: Disk, disk: Disk, p: Path, node: Node) {
    && p in disk && disk[p] == node
    && (forall q :: q in disk <==> q in before || LeadsTo(q, p))
    && (forall q :: q in before && q != p ==> disk[q] == before[q])
    && (forall q :: q in disk && q !in before && q != p ==> disk[q] == DirNode)
  }

  lemma ParentsThenNode(before: Disk, made: Disk, p: Path, node: Node)
    requires p != [] && MadeAlong(before, made, p[..|p| - 1])
    ensures IsPut(before, made[p := node], p, node)
  {
    forall q ensures LeadsTo(q, p) <==> q == p || LeadsTo(q, p[..|p| - 1]) {
      PrefixOfParent(p, q);
    }
  }

  /** An entry is put in its place with its parents, unless a file is in the way, or a file and a directory would replace each other. */
  lemma PutExactly(disk: Disk, p: Path, node: Node)
    ensures Put(disk, p, node).None? <==>
              p == [] || FileOnTheWay(disk, p[..|p| - 1]) || (p in disk && disk[p].DirNode? != node.DirNode?)
    ensures Put(disk, p, node).Some? ==> IsPut(disk, Put(disk, p, node).value, p, node)
  {
    if p != [] {
      var parent := p[..|p| - 1];
      MkdirExactly(disk, parent);
      if MkdirAll(disk, parent).Some? {
        var made := MkdirAll(disk, parent).value;
        assert !LeadsTo(p, parent);
        ParentsThenNode(disk, made, p, node);
        MkdirParents(disk, parent, made);
        DirIsPut(made, p);
      }
    }
  }

  /** What has been made along a path needs no making again. */
  lemma {:induction false} MkdirParents(disk: Disk, p: Path, made: Disk)
    requires MkdirAll(disk, p) == Some(made)
    ensures MkdirAll(made, p) == Some(made)
  {
    MkdirExactly(disk, p);
    forall k | 1 <= k <= |p| ensures p[..k] in made && made[p[..k]] == DirNode {
      assert LeadsTo(p[..k], p);
    }
    MkdirExisting(made, p);
  }

  lemma DirIsPut(made: Disk, p: Path)
    requires p != [] && MkdirAll(made, p[..|p| - 1]) == Some(made)
    ensures if p in made && made[p].FileNode? then MkdirAll(made, p) == None
            else MkdirAll(made, p) == Some(made[p := DirNode])
  {
    assert p in made && made[p] == DirNode ==> made[p := DirNode] == made;
  }

  /** Where an entry goes: cache entries and the manifest have a place each, anything else has none. */
  ghost predicate GoesTo(to: Target, h: Header, p: Path) {
    if to.fmt.cachePrefix <= h.name then h.name != to.fmt.cachePrefix && p == to.cacheDir + Components(h.name[|to.fmt.cachePrefix|..])
    else to.fmt.manifestPrefix + MANIFEST <= h.name && p == to.manifestDir + Components(h.name[|to.fmt.manifestPrefix|..])
  }

  /** Unpacking one entry puts it in its place, and skips it if it has none. */
  lemma EntryGoesToItsPlace(to: Target, u: Unpacked, h: Header)
    ensures (forall p :: !GoesTo(to, h, p)) ==> UnpackOne(to, u, h) == Some(u)
    ensures forall p :: GoesTo(to, h, p) ==>
              match Put(u.disk, p, h.node)
              case None => UnpackOne(to, u, h) == None
              case Some(disk) => UnpackOne(to, u, h).Some? && UnpackOne(to, u, h).value.disk == disk
  {
    if to.fmt.cachePrefix <= h.name {
      assert h.name == to.fmt.cachePrefix + h.name[|to.fmt.cachePrefix|..];
      assert h.name != to.fmt.cachePrefix ==> GoesTo(to, h, to.cacheDir + Components(h.name[|to.fmt.cachePrefix|..]));
    } else if to.fmt.manifestPrefix + MANIFEST <= h.name {
      assert GoesTo(to, h, to.manifestDir + Components(h.name[|to.fmt.manifestPrefix|..]));
    }
  }

  // ---------- The size check ----------

  /** The five outcomes: no label, a label that is no number, no bytes, another number, and the number of bytes. */
  lemma SizeCheckExactly(written: Option<string>, bytes: nat)
    ensures ValidateSize(written, bytes) == NoLabel <==> written == None
    ensures ValidateSize(written, bytes) == BadLabel <==> written.Some? && ParseInt(written.value) == None
    ensures ValidateSize(written, bytes) == NoBytes <==> written.Some? && ParseInt(written.value).Some? && bytes == 0
    ensures ValidateSize(written, bytes) == Accepted <==> written.Some? && ParseInt(written.value) == Some(bytes) && bytes > 0
  {
  }
}
