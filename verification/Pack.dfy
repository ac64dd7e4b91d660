/** Packing a cache directory into an image layer, and unpacking layers into a target directory. */
module Pack {
  import opened ApiTypes
  import opened Paths
  import opened Decimal

  // ---------- Directory trees ----------

  /** A regular file, or a directory with its entries in the order a walk visits them. */
  datatype Tree = File(content: string) | Dir(kids: Forest)

  datatype Forest = Empty | Kid(name: string, node: Tree, rest: Forest)

  predicate Named(f: Forest, name: string) {
    f.Kid? && (f.name == name || Named(f.rest, name))
  }

  predicate ValidTree(t: Tree) {
    t.Dir? ==> ValidForest(t.kids)
  }

  predicate ValidForest(f: Forest) {
    f.Kid? ==> ValidName(f.name) && !Named(f.rest, f.name) && ValidTree(f.node) && ValidForest(f.rest)
  }

  datatype Node = DirNode | FileNode(content: string)

  function NodeOf(t: Tree): Node {
    match t
    case File(content) => FileNode(content)
    case Dir(_) => DirNode
  }

  /** The subtree a relative path leads to. */
  function At(t: Tree, p: Path): Option<Tree>
    decreases t, 1
  {
    if p == [] then Some(t) else if t.File? then None else AtKid(t.kids, p)
  }

  function AtKid(f: Forest, p: Path): Option<Tree>
    requires p != []
    decreases f, 0
  {
    match f
    case Empty => None
    case Kid(name, node, rest) => if name == p[0] then At(node, p[1..]) else AtKid(rest, p)
  }

  /** Total size of all files, as the build writes it into the image label. */
  function TotalSize(t: Tree): nat {
    match t
    case File(content) => |content|
    case Dir(kids) => ForestSize(kids)
  }

  function ForestSize(f: Forest): nat {
    match f
    case Empty => 0
    case Kid(_, node, rest) => TotalSize(node) + ForestSize(rest)
  }

  // ---------- Packing ----------

  datatype Item = Item(path: Path, node: Node)

  /** A walk visits a directory before its entries. */
  function Walk(t: Tree, at: Path): seq<Item>
    decreases t, 1
  {
    [Item(at, NodeOf(t))] + (if t.Dir? then WalkKids(t.kids, at) else [])
  }

  function WalkKids(f: Forest, at: Path): seq<Item>
    decreases f, 0
  {
    match f
    case Empty => []
    case Kid(name, node, rest) => Walk(node, at + [name]) + WalkKids(rest, at)
  }

  datatype Header = Header(name: string, node: Node)

  function SizeOf(node: Node): nat {
    if node.FileNode? then |node.content| else 0
  }

  function HeaderOf(prefix: string, item: Item): Header {
    var name := Joined(Components(prefix) + item.path);
    Header(if item.node.DirNode? then name + "/" else name, item.node)
  }

  function HeadersOf(prefix: string, items: seq<Item>): (hs: seq<Header>)
    ensures |hs| == |items|
    ensures forall i :: 0 <= i < |items| ==> hs[i] == HeaderOf(prefix, items[i])
  {
    seq(|items|, i requires 0 <= i < |items| => HeaderOf(prefix, items[i]))
  }

  /** Tags name the directories inside the layer; the prefixes are what unpacking looks for. */
  datatype Format = Format(cacheTag: string, manifestTag: string, cachePrefix: string, manifestPrefix: string)

  const TRITON := Format("io.triton.cache/", "io.triton.manifest", "io.triton.cache/", "io.triton.manifest/")

  const VLLM := Format("./io.vllm.cache", "./io.vllm.manifest", "io.vllm.cache", "io.vllm.manifest/")

  const MANIFEST := "manifest.json"

  function Layer(fmt: Format, cache: Forest, manifest: Forest): seq<Header> {
    HeadersOf(fmt.cacheTag, WalkKids(cache, [])) + HeadersOf(fmt.manifestTag, WalkKids(manifest, []))
  }

  // ---------- Unpacking ----------

  type Disk = map<Path, Node>

  function MkdirAll(disk: Disk, p: Path): Option<Disk> {
    if p == [] then Some(disk)
    else
      match MkdirAll(disk, p[..|p| - 1])
      case None => None
      case Some(parents) =>
        if p !in parents then Some(parents[p := DirNode])
        else if parents[p].DirNode? then Some(parents) else None
  }

  function WriteFile(disk: Disk, p: Path, content: string): Option<Disk> {
    if p == [] || (p in disk && disk[p].DirNode?) then None else Some(disk[p := FileNode(content)])
  }

  datatype Target = Target(fmt: Format, cacheDir: Path, manifestDir: Path)

  datatype Unpacked = Unpacked(disk: Disk, dirs: seq<Path>, bytes: nat)

  /** Create the parents of a path, then the directory or the file itself. */
  function Put(disk: Disk, p: Path, node: Node): Option<Disk> {
    if p == [] then None
    else
      match MkdirAll(disk, p[..|p| - 1])
      case None => None
      case Some(parents) => if node.DirNode? then MkdirAll(parents, p) else WriteFile(parents, p, node.content)
  }

  function AddDir(dirs: seq<Path>, dir: Path): seq<Path> {
    if dir in dirs then dirs else dirs + [dir]
  }

  /** One archive entry; None is an error that ends the extraction. */
  function UnpackOne(to: Target, u: Unpacked, h: Header): Option<Unpacked> {
    if to.fmt.cachePrefix <= h.name then
      var rel := h.name[|to.fmt.cachePrefix|..];
      if rel == "" then Some(u)
      else
        match Put(u.disk, to.cacheDir + Components(rel), h.node)
        case None => None
        case Some(disk) =>
          Some(Unpacked(disk, AddDir(u.dirs, to.cacheDir + Components(DirPart(rel))), u.bytes + SizeOf(h.node)))
    else if to.fmt.manifestPrefix + MANIFEST <= h.name then
      match Put(u.disk, to.manifestDir + Components(h.name[|to.fmt.manifestPrefix|..]), h.node)
      case None => None
      case Some(disk) => Some(u.(disk := disk))
    else Some(u)
  }

  function UnpackAll(to: Target, u: Unpacked, hs: seq<Header>): Option<Unpacked>
    decreases |hs|
  {
    if hs == [] then Some(u)
    else
      match UnpackOne(to, u, hs[0])
      case None => None
      case Some(v) => UnpackAll(to, v, hs[1..])
  }

  /** Extract one layer. */
  function Unpack(to: Target, disk: Disk, hs: seq<Header>): Option<Unpacked> {
    match MkdirAll(disk, to.cacheDir)
    case None => None
    case Some(d) =>
      match MkdirAll(d, to.manifestDir)
      case None => None
      case Some(e) => UnpackAll(to, Unpacked(e, [], 0), hs)
  }

  /** A layer of an image; only layers of a docker or OCI media type are looked at. */
  datatype ImageLayer = ImageLayer(compat: bool, headers: seq<Header>)

  /** Extract the layers one after another; directories are listed together, bytes are added up. */
  function UnpackLayers(to: Target, u: Unpacked, layers: seq<ImageLayer>): Option<Unpacked>
    decreases |layers|
  {
    if layers == [] then Some(u)
    else if !layers[0].compat then UnpackLayers(to, u, layers[1..])
    else
      match Unpack(to, u.disk, layers[0].headers)
      case None => None
      case Some(v) => UnpackLayers(to, Unpacked(v.disk, u.dirs + v.dirs, u.bytes + v.bytes), layers[1..])
  }

  predicate HasCompat(layers: seq<ImageLayer>) {
    exists i :: 0 <= i < |layers| && layers[i].compat
  }

  /** An image without any such layer is an error. */
  function UnpackImage(to: Target, disk: Disk, layers: seq<ImageLayer>): Option<Unpacked> {
    if HasCompat(layers) then UnpackLayers(to, Unpacked(disk, [], 0), layers) else None
  }

  // ---------- The size label ----------

  datatype SizeCheck = Accepted | NoLabel | BadLabel | NoBytes | Mismatch

  function ValidateSize(written: Option<string>, bytes: nat): SizeCheck {
    match written
    case None => NoLabel
    case Some(s) =>
      match ParseInt(s)
      case None => BadLabel
      case Some(expected) => if bytes == 0 then NoBytes else if bytes != expected then Mismatch else Accepted
  }
}
