/** Unpacking a packed directory rebuilds exactly that directory and counts exactly its bytes. */
module PackProofs {
  import opened ApiTypes
  import opened Paths
  import opened Decimal
  import opened Pack

  // ---------- A tree as a map from paths ----------

  function Flat(t: Tree, at: Path): map<Path, Node>
    decreases t, 1
  {
    map[at := NodeOf(t)] + (if t.Dir? then FlatKids(t.kids, at) else map[])
  }

  function FlatKids(f: Forest, at: Path): map<Path, Node>
    decreases f, 0
  {
    match f
    case Empty => map[]
    case Kid(name, node, rest) => Flat(node, at + [name]) + FlatKids(rest, at)
  }

  /** Below `at`, through one of the names of the forest. */
  predicate Under(f: Forest, at: Path, p: Path) {
    at < p && Named(f, p[|at|])
  }

  lemma {:induction false} FlatUnder(t: Tree, at: Path, p: Path)
    requires p in Flat(t, at)
    ensures at <= p
    decreases t, 1
  {
    if p != at {
      FlatKidsUnder(t.kids, at, p);
    }
  }

  lemma {:induction false} FlatKidsUnder(f: Forest, at: Path, p: Path)
    requires p in FlatKids(f, at)
    ensures Under(f, at, p)
    decreases f, 0
  {
    match f
    case Kid(name, node, rest) =>
      if p in FlatKids(rest, at) {
        FlatKidsUnder(rest, at, p);
      } else {
        FlatUnder(node, at + [name], p);
        assert p[|at|] == name;
      }
  }

  /** The map holds exactly what following paths finds. */
  lemma {:induction false} FlatIsAt(t: Tree, at: Path, p: Path)
    requires ValidTree(t) && at <= p
    ensures p in Flat(t, at) <==> At(t, p[|at|..]).Some?
    ensures p in Flat(t, at) ==> Flat(t, at)[p] == NodeOf(At(t, p[|at|..]).value)
    decreases t, 1
  {
    if p == at {
      assert p[|at|..] == [];
      if t.Dir? && at in FlatKids(t.kids, at) {
        FlatKidsUnder(t.kids, at, at);
      }
    } else if t.Dir? {
      FlatKidsAreAt(t.kids, at, p);
    }
  }

  lemma {:induction false} FlatKidsAreAt(f: Forest, at: Path, p: Path)
    requires ValidForest(f) && at < p
    ensures p in FlatKids(f, at) <==> AtKid(f, p[|at|..]).Some?
    ensures p in FlatKids(f, at) ==> FlatKids(f, at)[p] == NodeOf(AtKid(f, p[|at|..]).value)
    decreases f, 0
  {
    match f
    case Empty =>
    case Kid(name, node, rest) =>
      FlatKidsAreAt(rest, at, p);
      var here := at + [name];
      if p[|at|] == name {
        assert here <= p && p[|here|..] == p[|at|..][1..];
        FlatIsAt(node, here, p);
        if p in FlatKids(rest, at) {
          FlatKidsUnder(rest, at, p);
        }
      } else if p in Flat(node, here) {
        FlatUnder(node, here, p);
      }
  }

  // ---------- Lists of headers ----------

  lemma HeadersConcat(prefix: string, a: seq<Item>, b: seq<Item>)
    ensures HeadersOf(prefix, a + b) == HeadersOf(prefix, a) + HeadersOf(prefix, b)
  {
  }

  lemma {:induction false} UnpackConcat(to: Target, u: Unpacked, a: seq<Header>, b: seq<Header>)
    ensures UnpackAll(to, u, a + b)
            == match UnpackAll(to, u, a) case None => None case Some(v) => UnpackAll(to, v, b)
    decreases |a|
  {
    if a == [] {
      assert a + b == b;
    } else {
      assert (a + b)[1..] == a[1..] + b;
      match UnpackOne(to, u, a[0])
      case None =>
      case Some(v) => UnpackConcat(to, v, a[1..], b);
    }
  }

  // ---------- The disk ----------

  /** Every prefix of the path is a directory. */
  ghost predicate Chain(disk: Disk, p: Path) {
    forall k :: 1 <= k <= |p| ==> p[..k] in disk && disk[p[..k]] == DirNode
  }

  lemma {:induction false} MkdirExisting(disk: Disk, p: Path)
    requires Chain(disk, p)
    ensures MkdirAll(disk, p) == Some(disk)
  {
    if p != [] {
      var parent := p[..|p| - 1];
      assert forall k :: 1 <= k <= |parent| ==> parent[..k] == p[..k];
      MkdirExisting(disk, parent);
      assert p[..|p|] == p;
    }
  }

  /** The disk is what it was, with the map put in below a base directory. */
  ghost predicate Holds(before: Disk, disk: Disk, base: Path, m: map<Path, Node>) {
    && (forall p :: p in disk <==> p in before || (base <= p && p[|base|..] in m))
    && (forall p :: p in before ==> disk[p] == before[p])
    && (forall p :: p in m ==> base + p in disk && disk[base + p] == m[p])
  }

  /** A base directory that exists and has nothing below it. */
  ghost predicate Free(disk: Disk, base: Path) {
    base != [] && Chain(disk, base) && forall p :: p in disk ==> !(base < p)
  }

  /** No path without its parent directory, and no empty path. */
  ghost predicate Closed(m: map<Path, Node>) {
    [] !in m && forall p :: p in m && |p| > 1 ==> p[..|p| - 1] in m && m[p[..|p| - 1]] == DirNode
  }

  ghost predicate Openable(m: map<Path, Node>, at: Path) {
    at == [] || (at in m && m[at] == DirNode)
  }

  lemma {:induction false} ChainBelow(before: Disk, disk: Disk, base: Path, m: map<Path, Node>, at: Path)
    requires Free(before, base) && Holds(before, disk, base, m) && Closed(m) && Openable(m, at)
    ensures Chain(disk, base + at)
  {
    if at == [] {
      assert base + at == base;
    } else {
      var parent := at[..|at| - 1];
      ChainBelow(before, disk, base, m, parent);
      forall k | 1 <= k <= |base + at| ensures (base + at)[..k] in disk && disk[(base + at)[..k]] == DirNode {
        if k == |base + at| {
          assert (base + at)[..k] == base + at;
        } else {
          assert (base + at)[..k] == (base + parent)[..k];
        }
      }
    }
  }

  lemma AddHolds(before: Disk, disk: Disk, base: Path, m: map<Path, Node>, p: Path, node: Node)
    requires Free(before, base) && Holds(before, disk, base, m) && p != []
    ensures Holds(before, disk[base + p := node], base, m[p := node])
  {
    var whole := base + p;
    var after := disk[whole := node];
    assert base < whole && whole[|base|..] == p && whole !in before;
    forall q ensures q in after <==> q in before || (base <= q && q[|base|..] in m[p := node]) {
      assert base <= q && q[|base|..] == p ==> q == whole;
    }
    forall q | q in m[p := node] ensures base + q in after && after[base + q] == m[p := node][q] {
      assert base + q == whole ==> (base + q)[|base|..] == p && q == p;
    }
  }

  lemma PutNew(disk: Disk, p: Path, node: Node)
    requires p != [] && Chain(disk, p[..|p| - 1]) && p !in disk
    ensures Put(disk, p, node) == Some(disk[p := node])
  {
    MkdirExisting(disk, p[..|p| - 1]);
  }

  lemma PutAdds(before: Disk, disk: Disk, base: Path, m: map<Path, Node>, p: Path, node: Node)
    requires Free(before, base) && Holds(before, disk, base, m) && Closed(m)
    requires p != [] && p !in m && Openable(m, p[..|p| - 1])
    ensures Put(disk, base + p, node) == Some(disk[base + p := node])
  {
    var whole := base + p;
    assert whole[..|whole| - 1] == base + p[..|p| - 1];
    ChainBelow(before, disk, base, m, p[..|p| - 1]);
    assert base < whole && whole[|base|..] == p && whole !in before;
    PutNew(disk, whole, node);
  }

  lemma CloseAdd(m: map<Path, Node>, p: Path, node: Node)
    requires Closed(m) && p != [] && p !in m && Openable(m, p[..|p| - 1])
    ensures Closed(m[p := node])
  {
  }

  // ---------- Names ----------

  /** Tags and prefixes agree on the names of the two directories inside the layer, give or take slashes. */
  ghost predicate Agrees(fmt: Format, cache: string, manifest: string) {
    && ValidName(cache) && ValidName(manifest) && !(cache <= manifest)
    && (fmt.cacheTag == cache + "/" || fmt.cacheTag == "./" + cache)
    && (fmt.cachePrefix == cache + "/" || fmt.cachePrefix == cache)
    && (fmt.manifestTag == manifest || fmt.manifestTag == "./" + manifest)
    && fmt.manifestPrefix == manifest + "/"
  }

  lemma TritonAgrees()
    ensures Agrees(TRITON, "io.triton.cache", "io.triton.manifest")
  {
    assert "io.triton.cache"[10] != "io.triton.manifest"[10];
  }

  lemma VllmNames(cache: string, manifest: string)
    requires cache == "io.vllm.cache" && manifest == "io.vllm.manifest"
    ensures ValidName(cache) && ValidName(manifest) && !(cache <= manifest)
  {
    assert cache[8] != manifest[8];
  }

  lemma VllmAgrees()
    ensures Agrees(VLLM, "io.vllm.cache", "io.vllm.manifest")
  {
    VllmNames("io.vllm.cache", "io.vllm.manifest");
  }

  lemma OneComponent(name: string)
    requires ValidName(name)
    ensures Components(name) == [name] && Components(name + "/") == [name]
  {
    FirstComponent(name, "/");
    FirstComponent(name, "");
    assert name + "" == name;
    assert "/"[1..] == "";
  }

  lemma TagComponents(fmt: Format, cache: string, manifest: string)
    requires Agrees(fmt, cache, manifest)
    ensures Components(fmt.cacheTag) == [cache] && Components(fmt.manifestTag) == [manifest]
  {
    OneComponent(cache);
    OneComponent(manifest);
    DotSlash(cache);
    DotSlash(manifest);
  }

  lemma DotSlash(name: string)
    requires ValidName(name)
    ensures Components("./" + name) == [name]
  {
    var rest := "/" + name;
    FirstSlashAt(".", rest);
    assert "./" + name == "." + rest;
    assert ("./" + name)[..1] == "." && ("./" + name)[1..] == rest;
    assert rest[1..] == name;
    FirstComponent(name, "");
    assert name + "" == name;
  }

  lemma JoinedHead(base: string, p: Path)
    requires p != []
    ensures Joined([base] + p) == base + "/" + Joined(p)
  {
    assert ([base] + p)[1..] == p;
  }

  /** The name an entry gets inside the layer. */
  lemma PackedName(tag: string, base: string, item: Item)
    requires Components(tag) == [base] && item.path != []
    ensures HeaderOf(tag, item).name == base + "/" + Joined(item.path) + (if item.node.DirNode? then "/" else "")
  {
    JoinedHead(base, item.path);
  }

  lemma AfterPrefix(base: string, inner: string)
    ensures base + "/" <= base + "/" + inner && (base + "/" + inner)[|base + "/"|..] == inner
    ensures base <= base + "/" + inner && (base + "/" + inner)[|base|..] == "/" + inner
  {
  }

  lemma StrippedName(prefix: string, cache: string, p: Path, tail: string)
    requires prefix == cache + "/" || prefix == cache
    requires ValidPath(p) && p != [] && (tail == "" || tail == "/")
    ensures var name := cache + "/" + (Joined(p) + tail);
            prefix <= name && name[|prefix|..] != "" && Components(name[|prefix|..]) == p
  {
    AfterPrefix(cache, Joined(p) + tail);
    SplitJoined(p, tail);
    LeadingSlash(Joined(p) + tail);
    JoinedNonEmpty(p);
  }

  /** What unpacking makes of the name of a packed cache entry: the relative path again. */
  lemma CacheName(fmt: Format, cache: string, manifest: string, item: Item)
    requires Agrees(fmt, cache, manifest) && ValidPath(item.path) && item.path != []
    ensures var h := HeaderOf(fmt.cacheTag, item);
            && fmt.cachePrefix <= h.name && h.name[|fmt.cachePrefix|..] != ""
            && Components(h.name[|fmt.cachePrefix|..]) == item.path
  {
    TagComponents(fmt, cache, manifest);
    PackedName(fmt.cacheTag, cache, item);
    var tail := if item.node.DirNode? then "/" else "";
    var name := HeaderOf(fmt.cacheTag, item).name;
    assert name == cache + "/" + (Joined(item.path) + tail);
    StrippedName(fmt.cachePrefix, cache, item.path, tail);
  }

  lemma JoinedNonEmpty(p: Path)
    requires p != [] && ValidPath(p)
    ensures Joined(p) != ""
  {
    assert ValidName(p[0]);
  }

  /** The manifest's name misses the cache prefix and leads to the manifest directory. */
  lemma ManifestName(fmt: Format, cache: string, manifest: string, content: string)
    requires Agrees(fmt, cache, manifest)
    ensures var h := HeaderOf(fmt.manifestTag, Item([MANIFEST], FileNode(content)));
            && !(fmt.cachePrefix <= h.name) && fmt.manifestPrefix + MANIFEST <= h.name
            && Components(h.name[|fmt.manifestPrefix|..]) == [MANIFEST]
  {
    var h := HeaderOf(fmt.manifestTag, Item([MANIFEST], FileNode(content)));
    TagComponents(fmt, cache, manifest);
    JoinedHead(manifest, [MANIFEST]);
    assert h.name == manifest + "/" + MANIFEST;
    assert h.name[|fmt.manifestPrefix|..] == MANIFEST;
    assert ValidName(MANIFEST);
    OneComponent(MANIFEST);
    if cache <= h.name {
      PrefixOfJoin(cache, manifest, MANIFEST);
    }
    assert fmt.cachePrefix <= h.name ==> cache <= h.name;
  }

  lemma PrefixOfJoin(name: string, head: string, tail: string)
    requires '/' !in name && name <= head + "/" + tail
    ensures name <= head
  {
    var whole := head + "/" + tail;
    assert whole[|head|] == '/';
    forall k | 0 <= k < |name| ensures name[k] == whole[k] && k != |head| {
    }
    assert name == whole[..|name|] && whole[..|name|] == head[..|name|];
  }

  // ---------- Putting a tree on the disk ----------

  function PutItems(disk: Disk, base: Path, items: seq<Item>): Option<Disk>
    decreases |items|
  {
    if items == [] then Some(disk)
    else
      match Put(disk, base + items[0].path, items[0].node)
      case None => None
      case Some(d) => PutItems(d, base, items[1..])
  }

  lemma {:induction false} PutConcat(disk: Disk, base: Path, a: seq<Item>, b: seq<Item>)
    ensures PutItems(disk, base, a + b) == match PutItems(disk, base, a) case None => None case Some(d) => PutItems(d, base, b)
    decreases |a|
  {
    if a == [] {
      assert a + b == b;
    } else {
      assert (a + b)[1..] == a[1..] + b;
      match Put(disk, base + a[0].path, a[0].node)
      case None =>
      case Some(d) => PutConcat(d, base, a[1..], b);
    }
  }

  ghost predicate Stands(before: Disk, base: Path, disk: Disk, m: map<Path, Node>) {
    Free(before, base) && Holds(before, disk, base, m) && Closed(m)
  }

  lemma PutOne(before: Disk, base: Path, disk: Disk, m: map<Path, Node>, p: Path, node: Node) returns (d: Disk)
    requires Stands(before, base, disk, m) && p != [] && p !in m && Openable(m, p[..|p| - 1])
    ensures Put(disk, base + p, node) == Some(d) && Stands(before, base, d, m[p := node])
  {
    PutAdds(before, disk, base, m, p, node);
    AddHolds(before, disk, base, m, p, node);
    CloseAdd(m, p, node);
    d := disk[base + p := node];
  }

  ghost predicate Clear(m: map<Path, Node>, f: Forest, at: Path) {
    forall p :: p in m ==> !Under(f, at, p)
  }

  ghost predicate ClearTree(m: map<Path, Node>, at: Path) {
    forall p :: p in m ==> !(at <= p)
  }

  lemma FlatDir(m: map<Path, Node>, t: Tree, at: Path)
    ensures m[at := NodeOf(t)] + (if t.Dir? then FlatKids(t.kids, at) else map[]) == m + Flat(t, at)
  {
  }

  lemma FlatRest(m: map<Path, Node>, f: Forest, at: Path)
    requires f.Kid?
    ensures m + Flat(f.node, at + [f.name]) + FlatKids(f.rest, at) == m + FlatKids(f, at)
  {
  }

  lemma PutFirst(disk: Disk, base: Path, item: Item, more: seq<Item>)
    requires Put(disk, base + item.path, item.node).Some?
    ensures PutItems(disk, base, [item] + more) == PutItems(Put(disk, base + item.path, item.node).value, base, more)
  {
    assert ([item] + more)[1..] == more;
  }

  lemma {:induction false} PutTree(before: Disk, base: Path, disk: Disk, m: map<Path, Node>, t: Tree, at: Path) returns (d: Disk)
    requires Stands(before, base, disk, m) && ValidTree(t) && at != [] && Openable(m, at[..|at| - 1]) && ClearTree(m, at)
    ensures PutItems(disk, base, Walk(t, at)) == Some(d)
    ensures Stands(before, base, d, m + Flat(t, at))
    decreases t, 1
  {
    FlatDir(m, t, at);
    d := PutOne(before, base, disk, m, at, NodeOf(t));
    PutFirst(disk, base, Item(at, NodeOf(t)), if t.Dir? then WalkKids(t.kids, at) else []);
    if t.Dir? {
      UnderDir(m, t, at);
      d := PutForest(before, base, d, m[at := NodeOf(t)], t.kids, at);
    } else {
      assert m[at := NodeOf(t)] + map[] == m[at := NodeOf(t)];
    }
  }

  lemma UnderDir(m: map<Path, Node>, t: Tree, at: Path)
    requires t.Dir? && ClearTree(m, at)
    ensures Clear(m[at := NodeOf(t)], t.kids, at) && Openable(m[at := NodeOf(t)], at)
  {
  }

  lemma {:induction false} PutForest(before: Disk, base: Path, disk: Disk, m: map<Path, Node>, f: Forest, at: Path) returns (d: Disk)
    requires Stands(before, base, disk, m) && ValidForest(f) && Openable(m, at) && Clear(m, f, at)
    ensures PutItems(disk, base, WalkKids(f, at)) == Some(d)
    ensures Stands(before, base, d, m + FlatKids(f, at))
    decreases f, 0
  {
    if f.Empty? {
      d := disk;
      assert m + FlatKids(f, at) == m;
    } else {
      var here := at + [f.name];
      assert here[..|here| - 1] == at;
      KidIsClear(m, f, at);
      var mid := PutTree(before, base, disk, m, f.node, here);
      RestIsClear(m, f, at);
      d := PutForest(before, base, mid, m + Flat(f.node, here), f.rest, at);
      PutConcat(disk, base, Walk(f.node, here), WalkKids(f.rest, at));
      FlatRest(m, f, at);
    }
  }

  lemma KidIsClear(m: map<Path, Node>, f: Forest, at: Path)
    requires f.Kid? && Clear(m, f, at)
    ensures ClearTree(m, at + [f.name])
  {
    var here := at + [f.name];
    forall p | here <= p ensures p !in m {
      assert at < p && p[|at|] == f.name;
    }
  }

  lemma RestIsClear(m: map<Path, Node>, f: Forest, at: Path)
    requires f.Kid? && ValidForest(f) && Clear(m, f, at) && Openable(m, at)
    ensures var m' := m + Flat(f.node, at + [f.name]); Clear(m', f.rest, at) && Openable(m', at)
  {
    var here := at + [f.name];
    forall p | p in Flat(f.node, here) ensures !Under(f.rest, at, p) && p != at {
      FlatUnder(f.node, here, p);
      assert p[|at|] == f.name;
    }
  }

  // ---------- Unpacking is putting ----------

  lemma {:induction false} WalkIsValid(t: Tree, at: Path)
    requires ValidTree(t) && ValidPath(at) && at != []
    ensures forall i :: 0 <= i < |Walk(t, at)| ==> ValidPath(Walk(t, at)[i].path) && Walk(t, at)[i].path != []
    decreases t, 1
  {
    if t.Dir? {
      WalkKidsAreValid(t.kids, at);
    }
  }

  lemma {:induction false} WalkKidsAreValid(f: Forest, at: Path)
    requires ValidForest(f) && ValidPath(at)
    ensures forall i :: 0 <= i < |WalkKids(f, at)| ==> ValidPath(WalkKids(f, at)[i].path) && WalkKids(f, at)[i].path != []
    decreases f, 0
  {
    if f.Kid? {
      WalkIsValid(f.node, at + [f.name]);
      WalkKidsAreValid(f.rest, at);
    }
  }

  function SumItems(items: seq<Item>): nat {
    if items == [] then 0 else SizeOf(items[0].node) + SumItems(items[1..])
  }

  lemma {:induction false} SumItemsConcat(a: seq<Item>, b: seq<Item>)
    ensures SumItems(a + b) == SumItems(a) + SumItems(b)
  {
    if a == [] {
      assert a + b == b;
    } else {
      SumItemsConcat(a[1..], b);
      assert (a + b)[1..] == a[1..] + b;
    }
  }

  lemma {:induction false} WalkSize(t: Tree, at: Path)
    ensures SumItems(Walk(t, at)) == TotalSize(t)
    decreases t, 1
  {
    var item := Item(at, NodeOf(t));
    var more := if t.Dir? then WalkKids(t.kids, at) else [];
    assert ([item] + more)[1..] == more;
    if t.Dir? {
      WalkKidsSize(t.kids, at);
    }
  }

  lemma {:induction false} WalkKidsSize(f: Forest, at: Path)
    ensures SumItems(WalkKids(f, at)) == ForestSize(f)
    decreases f, 0
  {
    if f.Kid? {
      WalkSize(f.node, at + [f.name]);
      WalkKidsSize(f.rest, at);
      SumItemsConcat(Walk(f.node, at + [f.name]), WalkKids(f.rest, at));
    }
  }

  /** Each packed cache entry is put where it came from, and its bytes are counted. */
  lemma {:induction false} UnpackPuts(to: Target, u: Unpacked, items: seq<Item>, cache: string, manifest: string, d: Disk)
    returns (v: Unpacked)
    requires Agrees(to.fmt, cache, manifest)
    requires forall i :: 0 <= i < |items| ==> ValidPath(items[i].path) && items[i].path != []
    requires PutItems(u.disk, to.cacheDir, items) == Some(d)
    ensures UnpackAll(to, u, HeadersOf(to.fmt.cacheTag, items)) == Some(v) && v.disk == d
    ensures v.bytes == u.bytes + SumItems(items)
    decreases |items|
  {
    v := u;
    if items != [] {
      var h := HeaderOf(to.fmt.cacheTag, items[0]);
      var hs := HeadersOf(to.fmt.cacheTag, items);
      CacheName(to.fmt, cache, manifest, items[0]);
      assert hs[0] == h && hs[1..] == HeadersOf(to.fmt.cacheTag, items[1..]);
      v := UnpackPuts(to, UnpackOne(to, u, h).value, items[1..], cache, manifest, d);
    }
  }

  // ---------- The round trip ----------

  /** Both target directories can be made, are apart from each other, and nothing is below them. */
  ghost predicate Vacant(disk: Disk, to: Target) {
    && to.cacheDir != [] && to.manifestDir != [] && !(to.cacheDir <= to.manifestDir) && !(to.manifestDir <= to.cacheDir)
    && (forall p :: p in disk ==> !(to.cacheDir < p) && !(to.manifestDir < p))
    && (forall p :: p in disk && (p <= to.cacheDir || p <= to.manifestDir) ==> disk[p] == DirNode)
  }

  lemma {:induction false} MkdirMakes(disk: Disk, p: Path) returns (d: Disk)
    requires forall k :: 1 <= k <= |p| && p[..k] in disk ==> disk[p[..k]] == DirNode
    ensures MkdirAll(disk, p) == Some(d) && Chain(d, p)
    ensures forall q :: q in d <==> q in disk || (q != [] && q <= p)
    ensures forall q :: q in disk ==> d[q] == disk[q]
  {
    if p == [] {
      d := disk;
    } else {
      var parent := p[..|p| - 1];
      assert forall k :: 1 <= k <= |parent| ==> parent[..k] == p[..k];
      var e := MkdirMakes(disk, parent);
      assert p[..|p|] == p;
      d := if p in e then e else e[p := DirNode];
      forall q ensures q in d <==> q in disk || (q != [] && q <= p) {
        assert q <= p && q != p ==> q == p[..|q|] == parent[..|q|];
      }
      forall k | 1 <= k <= |p| ensures p[..k] in d && d[p[..k]] == DirNode {
        assert k < |p| ==> p[..k] == parent[..k];
      }
    }
  }

  /** The disk with both target directories. */
  ghost predicate Prepared(disk: Disk, to: Target, e: Disk) {
    && Free(e, to.cacheDir) && Free(e, to.manifestDir)
    && (forall q :: q in e <==> q in disk || (q != [] && (q <= to.cacheDir || q <= to.manifestDir)))
    && (forall q :: q in disk ==> e[q] == disk[q])
  }

  lemma Comparable(a: Path, b: Path, p: Path)
    requires a <= p && b <= p
    ensures a <= b || b <= a
  {
    assert a == p[..|a|] && b == p[..|b|];
  }

  lemma PrefixApart(a: Path, b: Path, q: Path)
    requires a <= q && q <= b
    ensures a <= b
  {
  }

  lemma Prepare(disk: Disk, to: Target) returns (d: Disk, e: Disk)
    requires Vacant(disk, to)
    ensures MkdirAll(disk, to.cacheDir) == Some(d) && MkdirAll(d, to.manifestDir) == Some(e) && Prepared(disk, to, e)
  {
    assert forall k :: 1 <= k <= |to.cacheDir| ==> to.cacheDir[..k] <= to.cacheDir;
    assert forall k :: 1 <= k <= |to.manifestDir| ==> to.manifestDir[..k] <= to.manifestDir;
    d := MkdirMakes(disk, to.cacheDir);
    forall k | 1 <= k <= |to.manifestDir| && to.manifestDir[..k] in d ensures d[to.manifestDir[..k]] == DirNode {
      var q := to.manifestDir[..k];
      assert q !in disk ==> q == to.cacheDir[..|q|];
    }
    e := MkdirMakes(d, to.manifestDir);
    forall q | q in e ensures !(to.cacheDir < q) && !(to.manifestDir < q) {
      if q !in disk {
        if to.cacheDir < q && q <= to.manifestDir { PrefixApart(to.cacheDir, to.manifestDir, q); }
        if to.manifestDir < q && q <= to.cacheDir { PrefixApart(to.manifestDir, to.cacheDir, q); }
      }
    }
  }

  lemma ManifestIsNew(disk: Disk, to: Target, e: Disk, d: Disk, m: map<Path, Node>)
    requires Vacant(disk, to) && Prepared(disk, to, e) && Holds(e, d, to.cacheDir, m)
    ensures to.manifestDir + [MANIFEST] !in d && Chain(d, to.manifestDir) && !(to.cacheDir <= to.manifestDir + [MANIFEST])
    ensures forall p :: to.manifestDir < p ==> p !in d
  {
    forall p | p in d ensures !(to.manifestDir < p) {
      if to.manifestDir < p && to.cacheDir <= p {
        Comparable(to.cacheDir, to.manifestDir, p);
      }
    }
    if to.cacheDir <= to.manifestDir + [MANIFEST] {
      Comparable(to.cacheDir, to.manifestDir, to.manifestDir + [MANIFEST]);
    }
    assert to.manifestDir < to.manifestDir + [MANIFEST];
  }

  lemma UnpackManifestHeader(to: Target, u: Unpacked, h: Header)
    requires to.manifestDir != [] && to.manifestDir + [MANIFEST] !in u.disk && Chain(u.disk, to.manifestDir) && h.node.FileNode?
    requires !(to.fmt.cachePrefix <= h.name) && to.fmt.manifestPrefix + MANIFEST <= h.name
    requires Components(h.name[|to.fmt.manifestPrefix|..]) == [MANIFEST]
    ensures UnpackOne(to, u, h) == Some(u.(disk := u.disk[to.manifestDir + [MANIFEST] := h.node]))
  {
    var p := to.manifestDir + [MANIFEST];
    assert p[..|p| - 1] == to.manifestDir;
    PutNew(u.disk, p, h.node);
  }

  lemma UnpackManifest(to: Target, u: Unpacked, cache: string, manifest: string, content: string)
    requires Agrees(to.fmt, cache, manifest) && to.manifestDir != []
    requires to.manifestDir + [MANIFEST] !in u.disk && Chain(u.disk, to.manifestDir)
    ensures var hs := HeadersOf(to.fmt.manifestTag, WalkKids(Kid(MANIFEST, File(content), Empty), []));
            UnpackAll(to, u, hs) == Some(u.(disk := u.disk[to.manifestDir + [MANIFEST] := FileNode(content)]))
  {
    var item := Item([MANIFEST], FileNode(content));
    var h := HeaderOf(to.fmt.manifestTag, item);
    assert [] + [MANIFEST] == [MANIFEST];
    assert WalkKids(Kid(MANIFEST, File(content), Empty), []) == [item];
    ManifestName(to.fmt, cache, manifest, content);
    UnpackManifestHeader(to, u, h);
    OneHeader(to, u, h);
    assert HeadersOf(to.fmt.manifestTag, [item]) == [h];
  }

  lemma OneHeader(to: Target, u: Unpacked, h: Header)
    ensures UnpackAll(to, u, [h]) == UnpackOne(to, u, h)
  {
    assert [h][1..] == [];
  }

  /** Below the cache directory there is exactly what following the paths of the tree finds. */
  ghost predicate CacheIs(to: Target, after: Disk, f: Forest) {
    forall p :: to.cacheDir < p ==>
      && (p in after <==> AtKid(f, p[|to.cacheDir|..]).Some?)
      && (p in after ==> after[p] == NodeOf(AtKid(f, p[|to.cacheDir|..]).value))
  }

  /** The manifest directory holds the manifest and nothing else. */
  ghost predicate ManifestIs(to: Target, after: Disk, content: string) {
    && to.manifestDir + [MANIFEST] in after && after[to.manifestDir + [MANIFEST]] == FileNode(content)
    && forall p :: p in after && to.manifestDir < p ==> p == to.manifestDir + [MANIFEST]
  }

  /** What was on the disk is untouched; what is new is in the two directories, or leads to them. */
  ghost predicate RestIs(before: Disk, to: Target, after: Disk) {
    && (forall p :: p in before ==> p in after && after[p] == before[p])
    && (forall p :: p in after && p !in before ==>
          to.cacheDir < p || to.manifestDir < p || p <= to.cacheDir || p <= to.manifestDir)
  }

  /** What the target looks like: the directory rebuilt, the manifest in its own place, and everything else as before. */
  ghost predicate Rebuilt(before: Disk, to: Target, after: Disk, f: Forest, content: string) {
    CacheIs(to, after, f) && ManifestIs(to, after, content) && RestIs(before, to, after)
  }

  lemma CacheRebuilt(e: Disk, to: Target, d: Disk, f: Forest, p: Path)
    requires Free(e, to.cacheDir) && Holds(e, d, to.cacheDir, FlatKids(f, [])) && ValidForest(f) && to.cacheDir < p
    ensures p in d <==> AtKid(f, p[|to.cacheDir|..]).Some?
    ensures p in d ==> d[p] == NodeOf(AtKid(f, p[|to.cacheDir|..]).value)
  {
    var rel := p[|to.cacheDir|..];
    FlatKidsAreAt(f, [], rel);
    assert rel[0..] == rel && to.cacheDir + rel == p;
  }

  lemma CacheSurvives(to: Target, e: Disk, d: Disk, f: Forest, content: string)
    requires Free(e, to.cacheDir) && Holds(e, d, to.cacheDir, FlatKids(f, [])) && ValidForest(f)
    requires !(to.cacheDir <= to.manifestDir + [MANIFEST])
    ensures CacheIs(to, d[to.manifestDir + [MANIFEST] := FileNode(content)], f)
  {
    var after := d[to.manifestDir + [MANIFEST] := FileNode(content)];
    forall p | to.cacheDir < p
      ensures p in after <==> AtKid(f, p[|to.cacheDir|..]).Some?
      ensures p in after ==> after[p] == NodeOf(AtKid(f, p[|to.cacheDir|..]).value)
    {
      CacheRebuilt(e, to, d, f, p);
    }
  }

  lemma RestSurvives(disk: Disk, to: Target, e: Disk, d: Disk, m: map<Path, Node>, content: string)
    requires Prepared(disk, to, e) && Holds(e, d, to.cacheDir, m) && to.manifestDir + [MANIFEST] !in d
    ensures RestIs(disk, to, d[to.manifestDir + [MANIFEST] := FileNode(content)])
  {
    assert to.manifestDir < to.manifestDir + [MANIFEST];
  }

  lemma HoldsIsRebuilt(disk: Disk, to: Target, e: Disk, d: Disk, f: Forest, content: string)
    requires Vacant(disk, to) && Prepared(disk, to, e) && Holds(e, d, to.cacheDir, FlatKids(f, [])) && ValidForest(f)
    ensures Rebuilt(disk, to, d[to.manifestDir + [MANIFEST] := FileNode(content)], f, content)
  {
    ManifestIsNew(disk, to, e, d, FlatKids(f, []));
    CacheSurvives(to, e, d, f, content);
    RestSurvives(disk, to, e, d, FlatKids(f, []), content);
  }

  lemma PutCache(before: Disk, base: Path, f: Forest) returns (d: Disk)
    requires Free(before, base) && ValidForest(f)
    ensures PutItems(before, base, WalkKids(f, [])) == Some(d) && Holds(before, d, base, FlatKids(f, []))
  {
    assert Stands(before, base, before, map[]);
    d := PutForest(before, base, before, map[], f, []);
    assert map[] + FlatKids(f, []) == FlatKids(f, []);
  }

  lemma UnpackCache(before: Disk, to: Target, cache: string, manifest: string, f: Forest) returns (d: Disk, v: Unpacked)
    requires Agrees(to.fmt, cache, manifest) && Free(before, to.cacheDir) && ValidForest(f)
    ensures UnpackAll(to, Unpacked(before, [], 0), HeadersOf(to.fmt.cacheTag, WalkKids(f, []))) == Some(v)
    ensures v.disk == d && Holds(before, d, to.cacheDir, FlatKids(f, [])) && v.bytes == ForestSize(f)
  {
    d := PutCache(before, to.cacheDir, f);
    WalkKidsAreValid(f, []);
    v := UnpackPuts(to, Unpacked(before, [], 0), WalkKids(f, []), cache, manifest, d);
    WalkKidsSize(f, []);
  }

  /**
   * Round trip: for every directory tree, unpacking the packed layer succeeds, rebuilds exactly that tree below the cache
   * directory, puts the manifest into the manifest directory, and returns the total size of the tree.
   */
  lemma RoundTrip(to: Target, cache: string, manifest: string, disk: Disk, f: Forest, content: string) returns (v: Unpacked)
    requires Agrees(to.fmt, cache, manifest) && Vacant(disk, to) && ValidForest(f)
    ensures Unpack(to, disk, Layer(to.fmt, f, Kid(MANIFEST, File(content), Empty))) == Some(v)
    ensures Rebuilt(disk, to, v.disk, f, content) && v.bytes == TotalSize(Dir(f))
  {
    var made, e := Prepare(disk, to);
    var d, u := UnpackCache(e, to, cache, manifest, f);
    ManifestIsNew(disk, to, e, d, FlatKids(f, []));
    UnpackManifest(to, u, cache, manifest, content);
    v := u.(disk := d[to.manifestDir + [MANIFEST] := FileNode(content)]);
    UnpackConcat(to, Unpacked(e, [], 0), HeadersOf(to.fmt.cacheTag, WalkKids(f, [])),
                 HeadersOf(to.fmt.manifestTag, WalkKids(Kid(MANIFEST, File(content), Empty), [])));
    HoldsIsRebuilt(disk, to, e, d, f, content);
  }

  lemma {:induction false} ForeignLayers(to: Target, u: Unpacked, layers: seq<ImageLayer>)
    requires !HasCompat(layers)
    ensures UnpackLayers(to, u, layers) == Some(u)
    decreases |layers|
  {
    if layers != [] {
      assert !layers[0].compat;
      assert forall i :: 0 <= i < |layers| - 1 ==> layers[1..][i] == layers[i + 1];
      ForeignLayers(to, u, layers[1..]);
    }
  }

  /** An image with one layer of ours, wherever it stands among others, unpacks like that layer. */
  lemma {:induction false} OneOfOurs(to: Target, disk: Disk, layers: seq<ImageLayer>, k: nat)
    requires k < |layers| && layers[k].compat && forall i :: 0 <= i < |layers| && layers[i].compat ==> i == k
    ensures UnpackLayers(to, Unpacked(disk, [], 0), layers) == Unpack(to, disk, layers[k].headers)
    decreases |layers|
  {
    var rest := layers[1..];
    assert forall i :: 0 <= i < |rest| ==> rest[i] == layers[i + 1];
    if k == 0 {
      assert !HasCompat(rest);
      match Unpack(to, disk, layers[0].headers)
      case None =>
      case Some(v) =>
        assert Unpacked(v.disk, [] + v.dirs, 0 + v.bytes) == v;
        ForeignLayers(to, v, rest);
    } else {
      OneOfOurs(to, disk, rest, k - 1);
    }
  }

  /** The round trip through a whole image: the size check accepts it if and only if the cache holds any bytes at all. */
  lemma ImageRoundTrip(to: Target, cache: string, manifest: string, disk: Disk, f: Forest, content: string, layers: seq<ImageLayer>, k: nat)
    returns (v: Unpacked)
    requires Agrees(to.fmt, cache, manifest) && Vacant(disk, to) && ValidForest(f) && TotalSize(Dir(f)) <= MAX_INT64
    requires k < |layers| && layers[k] == ImageLayer(true, Layer(to.fmt, f, Kid(MANIFEST, File(content), Empty)))
    requires forall i :: 0 <= i < |layers| && layers[i].compat ==> i == k
    ensures UnpackImage(to, disk, layers) == Some(v) && Rebuilt(disk, to, v.disk, f, content)
    ensures ValidateSize(Some(Itoa(TotalSize(Dir(f)))), v.bytes) == Accepted <==> TotalSize(Dir(f)) != 0
  {
    OneOfOurs(to, disk, layers, k);
    assert HasCompat(layers);
    v := RoundTrip(to, cache, manifest, disk, f, content);
    ParsePrinted(TotalSize(Dir(f)));
  }

  /** The size check accepts an unpacked cache if and only if the cache holds any bytes at all. */
  lemma SizeAccepted(to: Target, cache: string, manifest: string, disk: Disk, f: Forest, content: string) returns (v: Unpacked)
    requires Agrees(to.fmt, cache, manifest) && Vacant(disk, to) && ValidForest(f) && TotalSize(Dir(f)) <= MAX_INT64
    ensures Unpack(to, disk, Layer(to.fmt, f, Kid(MANIFEST, File(content), Empty))) == Some(v)
    ensures ValidateSize(Some(Itoa(TotalSize(Dir(f)))), v.bytes) == Accepted <==> TotalSize(Dir(f)) != 0
    ensures forall n :: MIN_INT64 <= n <= MAX_INT64 && ValidateSize(Some(Itoa(n)), v.bytes) == Accepted ==> n == TotalSize(Dir(f))
  {
    v := RoundTrip(to, cache, manifest, disk, f, content);
    ParsePrinted(TotalSize(Dir(f)));
    forall n | MIN_INT64 <= n <= MAX_INT64 && ValidateSize(Some(Itoa(n)), v.bytes) == Accepted ensures n == TotalSize(Dir(f)) {
      ParsePrinted(n);
    }
  }
}
