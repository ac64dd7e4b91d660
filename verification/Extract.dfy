/** Several extract Jobs share one directory: lock file, sentinel, temporary file with rename, and a clearing step. */
module Extract {
  import opened ApiTypes
  import opened Names

  const LOCK := ".extract.lock"
  const INIT := ".initialized"
  const TMP := ".initialized.tmp"

  /** A file below a top-level entry of the directory; a top-level file has an empty rest. */
  datatype Path = Path(top: string, rest: string)

  const LOCK_PATH := Path(LOCK, "")
  const INIT_PATH := Path(INIT, "")
  const TMP_PATH := Path(TMP, "")

  datatype File = File(inode: nat, content: string)

  /** What extracting an image puts into the directory. */
  type Image = map<Path, string>

  datatype Pc =
    | Start
    | Opened
    | Locked
    | Clearing(todo: seq<string>)
    | Writing
    | Extracting(left: set<Path>) // files not yet there, or not yet whole
    | Failing
    | Unlocking
    | Sleeping
    | Returning
    | Gone

  datatype Proc = Proc(url: string, pc: Pc, fd: Option<nat>)

  datatype World = World(files: map<Path, File>, procs: seq<Proc>)

  /** Between flock and unlock, close or crash. */
  predicate Holds(p: Proc) {
    p.pc.Locked? || p.pc.Clearing? || p.pc.Writing? || p.pc.Extracting? || p.pc.Failing? || p.pc.Unlocking?
    || p.pc.Returning?
  }

  ghost function Tops(files: map<Path, File>): set<string> {
    set p | p in files :: p.top
  }

  ghost predicate Unused(files: map<Path, File>, inode: nat) {
    forall p :: p in files ==> files[p].inode != inode
  }

  /** Create or truncate and write a file; an existing file keeps its inode. */
  ghost predicate Wrote(files: map<Path, File>, files': map<Path, File>, p: Path, content: string) {
    && p in files' && files' == files[p := files'[p]]
    && files'[p].content == content
    && (if p in files then files'[p].inode == files[p].inode else Unused(files, files'[p].inode))
  }

  datatype Act =
    | Open
    | Flock
    | Found          // the sentinel names this URL: return without writing
    | Stale(names: seq<string>) // the sentinel names another URL: list the directory
    | Skip
    | RemoveOne(path: Path)
    | NextEntry
    | Cleared
    | Missing        // no sentinel
    | Truncate
    | WriteTmp
    | Partial(path: Path, junk: string)
    | WriteFile(path: Path)
    | Fail
    | RemoveTmp
    | Unlock
    | Rename
    | Close
    | Crash

  ghost predicate Kept(name: string) {
    name == LOCK || name == TMP
  }

  /** One system call of one process. Anything may happen between two of them, a crash included. */
  ghost predicate Acts(images: map<string, Image>, w: World, w': World, i: nat, act: Act)
    requires i < |w.procs| && w.procs[i].url in images
  {
    var p := w.procs[i];
    var f, f' := w.files, w'.files;
    && |w'.procs| == |w.procs| && w'.procs == w.procs[i := w'.procs[i]]
    && var p' := w'.procs[i];
       match act
       case Open =>
         && p.pc == Start && LOCK_PATH in f' && p' == p.(pc := Opened, fd := Some(f'[LOCK_PATH].inode))
         && (if LOCK_PATH in f then f' == f else Wrote(f, f', LOCK_PATH, ""))
       case Flock =>
         && p.pc == Opened && f' == f && p' == p.(pc := Locked)
         && forall j :: 0 <= j < |w.procs| && Holds(w.procs[j]) ==> w.procs[j].fd != p.fd
       case Found => p.pc == Locked && INIT_PATH in f && Trim(f[INIT_PATH].content) == p.url && f' == f && p' == p.(pc := Returning)
       case Stale(names) =>
         && p.pc == Locked && INIT_PATH in f && Trim(f[INIT_PATH].content) != p.url && f' == f
         && Listing(names, Tops(f)) && p' == p.(pc := Clearing(names))
       case Skip => p.pc.Clearing? && p.pc.todo != [] && Kept(p.pc.todo[0]) && f' == f && p' == p.(pc := Clearing(p.pc.todo[1..]))
       case RemoveOne(path) =>
         && p.pc.Clearing? && p.pc.todo != [] && !Kept(p.pc.todo[0]) && path in f && path.top == p.pc.todo[0]
         && f' == f - {path} && p' == p
       case NextEntry =>
         && p.pc.Clearing? && p.pc.todo != [] && p.pc.todo[0] !in Tops(f) && f' == f && p' == p.(pc := Clearing(p.pc.todo[1..]))
       case Cleared => p.pc == Clearing([]) && f' == f && p' == p.(pc := Writing)
       case Missing => p.pc == Locked && INIT_PATH !in f && f' == f && p' == p.(pc := Writing)
       case Truncate => p.pc == Writing && Wrote(f, f', TMP_PATH, "") && p' == p
       case WriteTmp =>
         p.pc == Writing && Wrote(f, f', TMP_PATH, p.url + "\n") && p' == p.(pc := Extracting(images[p.url].Keys))
       case Partial(path, junk) =>
         p.pc.Extracting? && path in images[p.url] && Wrote(f, f', path, junk) && p' == p.(pc := Extracting(p.pc.left + {path}))
       case WriteFile(path) =>
         && p.pc.Extracting? && path in images[p.url] && Wrote(f, f', path, images[p.url][path])
         && p' == p.(pc := Extracting(p.pc.left - {path}))
       case Fail => p.pc.Extracting? && f' == f && p' == p.(pc := Failing)
       case RemoveTmp => p.pc == Failing && f' == f - {TMP_PATH} && p' == p.(pc := Unlocking)
       case Unlock => p.pc == Unlocking && f' == f && p' == p.(pc := Sleeping)
       case Rename =>
         && p.pc == Extracting({}) && TMP_PATH in f && f' == f[INIT_PATH := f[TMP_PATH]] - {TMP_PATH}
         && p' == p.(pc := Returning)
       case Close => (p.pc == Returning || p.pc == Sleeping) && f' == f && p' == p.(pc := Gone, fd := None)
       case Crash => f' == f && p' == p.(pc := Gone, fd := None)
  }

  ghost predicate Init(images: map<string, Image>, w: World) {
    w.files == map[] && forall i :: 0 <= i < |w.procs| ==>
      w.procs[i].url in images && w.procs[i].pc == Start && w.procs[i].fd == None
  }

  datatype Step = Step(proc: nat, act: Act)

  ghost predicate Steps(images: map<string, Image>, w: World, w': World, step: Step) {
    step.proc < |w.procs| && w.procs[step.proc].url in images && Acts(images, w, w', step.proc, step.act)
  }

  ghost predicate StepAt(images: map<string, Image>, ws: seq<World>, steps: seq<Step>, t: nat) {
    t + 1 < |ws| && t < |steps| && Steps(images, ws[t], ws[t + 1], steps[t])
  }

  /** A run of any number of extractors, in any interleaving. */
  ghost predicate Run(images: map<string, Image>, ws: seq<World>, steps: seq<Step>) {
    && |ws| == |steps| + 1 && Init(images, ws[0])
    && forall t: nat :: t < |steps| ==> StepAt(images, ws, steps, t)
  }

  // ---------- What is assumed of images ----------

  /** URLs are trimmed, and images bring none of the control files. */
  ghost predicate Clean(images: map<string, Image>) {
    forall u :: u in images ==>
      u != "" && Trim(u) == u && forall p :: p in images[u] ==> p.top != LOCK && p.top != INIT && p.top != TMP
  }

  /** Everything an image brings is listed after the sentinel. */
  ghost predicate AfterSentinel(images: map<string, Image>) {
    forall u, p :: u in images && p in images[u] ==> Before(INIT, p.top)
  }

  // ---------- Safety ----------

  ghost predicate Complete(files: map<Path, File>, image: Image) {
    forall p :: p in image ==> p in files && files[p].content == image[p]
  }

  /** If the sentinel names a URL, every file of that image is there with its content. */
  ghost predicate SentinelTrue(images: map<string, Image>, w: World) {
    INIT_PATH in w.files ==>
      var u := Trim(w.files[INIT_PATH].content);
      u in images && Complete(w.files, images[u])
  }
}
