/** Packing and unpacking as they run: a writer and a disk that are changed entry by entry. */
module PackMain {
  import opened ApiTypes
  import opened Paths
  import opened Pack
  import opened PackProofs

  class TarWriter {
    var headers: seq<Header>

    method Append(h: Header)
      modifies this
      ensures headers == old(headers) + [h]
    {
      headers := headers + [h];
    }

    /** Walk the directory and append every entry under the prefix; the first visit is the root, which gets no header. */
    method AppendTreeToTar(kids: Forest, prefix: string)
      modifies this
      ensures headers == old(headers) + HeadersOf(prefix, WalkKids(kids, []))
    {
      var items := Walk(Dir(kids), [])[1..];
      ghost var start := headers;
      for i := 0 to |items|
        invariant headers == start + HeadersOf(prefix, items[..i])
      {
        Append(HeaderOf(prefix, items[i]));
        NextHeader(prefix, items, i);
      }
      assert items[..|items|] == items;
      assert items == WalkKids(kids, []);
    }

    method WriteCompatLayerTar(fmt: Format, cache: Forest, manifest: Forest)
      modifies this
      ensures headers == old(headers) + Layer(fmt, cache, manifest)
    {
      ghost var start := headers;
      AppendTreeToTar(cache, fmt.cacheTag);
      AppendTreeToTar(manifest, fmt.manifestTag);
      ghost var a, b := HeadersOf(fmt.cacheTag, WalkKids(cache, [])), HeadersOf(fmt.manifestTag, WalkKids(manifest, []));
      Associative(start, a, b);
    }
  }

  lemma Associative<T>(a: seq<T>, b: seq<T>, c: seq<T>)
    ensures a + b + c == a + (b + c)
  {
  }

  lemma NextHeader(prefix: string, items: seq<Item>, i: nat)
    requires i < |items|
    ensures HeadersOf(prefix, items[..i + 1]) == HeadersOf(prefix, items[..i]) + [HeaderOf(prefix, items[i])]
  {
    assert items[..i + 1] == items[..i] + [items[i]];
    HeadersConcat(prefix, items[..i], [items[i]]);
    assert HeadersOf(prefix, [items[i]]) == [HeaderOf(prefix, items[i])];
  }

  /** Add up the sizes of all files below a directory. */
  method TotalDirSize(t: Tree) returns (total: nat)
    ensures total == TotalSize(t)
  {
    total := 0;
    var items := Walk(t, []);
    for i := 0 to |items|
      invariant total == SumItems(items[..i])
    {
      assert items[..i + 1] == items[..i] + [items[i]];
      SumItemsConcat(items[..i], [items[i]]);
      assert [items[i]][1..] == [];
      if !items[i].node.DirNode? {
        total := total + |items[i].node.content|;
      }
    }
    assert items[..|items|] == items;
    WalkSize(t, []);
  }

  class TargetDisk {
    var disk: Disk

    method MakeAll(p: Path) returns (err: bool)
      modifies this
      ensures err <==> MkdirAll(old(disk), p).None?
      ensures !err ==> MkdirAll(old(disk), p) == Some(disk)
    {
      for k := 0 to |p|
        invariant MkdirAll(old(disk), p[..k]) == Some(disk)
      {
        var q := p[..k + 1];
        assert q[..|q| - 1] == p[..k];
        if q !in disk {
          disk := disk[q := DirNode];
        } else if disk[q].FileNode? {
          MkdirFails(old(disk), p, k + 1);
          return true;
        }
      }
      assert p[..|p|] == p;
      err := false;
    }

    method Write(p: Path, content: string) returns (err: bool)
      modifies this
      ensures err <==> WriteFile(old(disk), p, content).None?
      ensures !err ==> WriteFile(old(disk), p, content) == Some(disk)
    {
      err := p == [] || (p in disk && disk[p].DirNode?);
      if !err {
        disk := disk[p := FileNode(content)];
      }
    }

    method PutNode(p: Path, node: Node) returns (err: bool)
      modifies this
      ensures err <==> Put(old(disk), p, node).None?
      ensures !err ==> Put(old(disk), p, node) == Some(disk)
    {
      if p == [] {
        return true;
      }
      err := MakeAll(p[..|p| - 1]);
      if !err {
        match node
        case DirNode => err := MakeAll(p);
        case FileNode(content) => err := Write(p, content);
      }
    }

    /** Unpack one entry: cache entries, the manifest, or nothing of interest. */
    method UnpackEntry(to: Target, h: Header, before: seq<Path>, count: nat) returns (dirs: seq<Path>, bytes: nat, err: bool)
      modifies this
      ensures match UnpackOne(to, Unpacked(old(disk), before, count), h)
              case None => err
              case Some(v) => !err && v == Unpacked(disk, dirs, bytes)
    {
      dirs, bytes, err := before, count, false;
      if to.fmt.cachePrefix <= h.name {
        var rel := h.name[|to.fmt.cachePrefix|..];
        if rel == "" {
          return;
        }
        var dir := to.cacheDir + Components(DirPart(rel));
        if dir !in dirs {
          dirs := dirs + [dir];
        }
        err := PutNode(to.cacheDir + Components(rel), h.node);
        if h.node.FileNode? {
          bytes := bytes + |h.node.content|;
        }
      } else if to.fmt.manifestPrefix + MANIFEST <= h.name {
        err := PutNode(to.manifestDir + Components(h.name[|to.fmt.manifestPrefix|..]), h.node);
      }
    }

    method ExtractCacheAndManifestDirectory(to: Target, hs: seq<Header>) returns (dirs: seq<Path>, bytes: nat, err: bool)
      modifies this
      ensures match Unpack(to, old(disk), hs)
              case None => err
              case Some(v) => !err && v == Unpacked(disk, dirs, bytes)
      ensures !err ==> forall i, j :: 0 <= i < j < |dirs| ==> dirs[i] != dirs[j]
    {
      dirs, bytes := [], 0;
      err := MakeAll(to.cacheDir);
      if err {
        return;
      }
      err := MakeAll(to.manifestDir);
      if err {
        return;
      }
      ghost var start := Unpacked(disk, [], 0);
      for i := 0 to |hs|
        invariant UnpackAll(to, start, hs) == UnpackAll(to, Unpacked(disk, dirs, bytes), hs[i..])
        invariant forall i, j :: 0 <= i < j < |dirs| ==> dirs[i] != dirs[j]
      {
        assert hs[i..][1..] == hs[i + 1..];
        ghost var u := Unpacked(disk, dirs, bytes);
        dirs, bytes, err := UnpackEntry(to, hs[i], dirs, bytes);
        if err {
          return;
        }
        assert dirs == u.dirs || (exists dir :: dir !in u.dirs && dirs == u.dirs + [dir]);
      }
    }

    /** Extract every layer of ours from an image. */
    method ExtractCompatImg(to: Target, layers: seq<ImageLayer>) returns (dirs: seq<Path>, bytes: nat, err: bool)
      modifies this
      ensures match UnpackImage(to, old(disk), layers)
              case None => err
              case Some(v) => !err && v == Unpacked(disk, dirs, bytes)
    {
      dirs, bytes, err := [], 0, !HasCompat(layers);
      if err {
        return;
      }
      ghost var start := Unpacked(disk, [], 0);
      for i := 0 to |layers|
        invariant UnpackLayers(to, start, layers) == UnpackLayers(to, Unpacked(disk, dirs, bytes), layers[i..])
      {
        assert layers[i..][1..] == layers[i + 1..];
        if layers[i].compat {
          var more, count;
          more, count, err := ExtractCacheAndManifestDirectory(to, layers[i].headers);
          if err {
            return;
          }
          dirs, bytes := dirs + more, bytes + count;
        }
      }
    }
  }

  lemma {:induction false} MkdirFails(disk: Disk, p: Path, k: nat)
    requires k <= |p| && MkdirAll(disk, p[..k]).None?
    ensures MkdirAll(disk, p).None?
  {
    if k == |p| {
      assert p[..k] == p;
    } else {
      var parent := p[..|p| - 1];
      assert parent[..k] == p[..k];
      MkdirFails(disk, parent, k);
    }
  }
}
