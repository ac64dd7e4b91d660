/** What a clearing leaves, and what a success leaves beside the image, over whole runs of the extract protocol. */
module ExtractClears {
  import opened ApiTypes
  import opened Names
  import opened Extract
  import opened ExtractProofs
  import opened ExtractUnsafe

  // ---------- A clearing clears ----------

  /** What is still there is spared, or its turn is yet to come. */
  ghost predicate Covered(files: map<Path, File>, p: Proc) {
    p.pc.Clearing? ==> forall path :: path in files ==> Kept(path.top) || path.top in p.pc.todo
  }

  ghost predicate AllCovered(w: World) {
    forall i :: 0 <= i < |w.procs| ==> Covered(w.files, w.procs[i])
  }

  /** Another process adds nothing but the lock file while a process holds the lock. */
  lemma OthersAddNothing(images: map<string, Image>, w: World, w': World, i: nat, act: Act, j: nat)
    requires Sound(images, w) && i < |w.procs| && Acts(images, w, w', i, act)
    requires j < |w.procs| && j != i && Holds(w.procs[j])
    ensures w'.procs[j] == w.procs[j] && w'.files == w.files
  {
    if w'.files != w.files {
      OnlyHolderWrites(images, w, w', i, act);
    }
  }

  lemma OwnCovered(images: map<string, Image>, w: World, w': World, i: nat, act: Act)
    requires i < |w.procs| && w.procs[i].url in images && Acts(images, w, w', i, act) && Covered(w.files, w.procs[i])
    ensures Covered(w'.files, w'.procs[i])
  {
    if act.Stale? {
      forall path | path in w.files ensures path.top in act.names {
        assert path.top in Tops(w.files);
      }
    } else if act.NextEntry? {
      forall path | path in w.files ensures path.top in Tops(w.files) {
      }
    }
  }

  lemma CoveredStays(images: map<string, Image>, w: World, w': World, i: nat, act: Act)
    requires Sound(images, w) && i < |w.procs| && Acts(images, w, w', i, act) && AllCovered(w)
    ensures AllCovered(w')
  {
    forall j | 0 <= j < |w'.procs| ensures Covered(w'.files, w'.procs[j]) {
      if j == i {
        assert Covered(w.files, w.procs[i]);
        OwnCovered(images, w, w', i, act);
      } else if Holds(w.procs[j]) {
        assert Covered(w.files, w.procs[j]);
        OthersAddNothing(images, w, w', i, act, j);
      }
    }
  }

  lemma {:induction false} RunCovered(images: map<string, Image>, ws: seq<World>, steps: seq<Step>, t: nat)
    requires Clean(images) && Run(images, ws, steps) && t < |ws|
    ensures AllCovered(ws[t])
  {
    if t > 0 {
      RunCovered(images, ws, steps, t - 1);
      RunSound(images, ws, steps, t - 1);
      assert StepAt(images, ws, steps, t - 1);
      CoveredStays(images, ws[t - 1], ws[t], steps[t - 1].proc, steps[t - 1].act);
    }
  }

  /** When a clearing ends nothing is left but the lock and the temporary file, and no file of any image. */
  lemma ClearingClears(images: map<string, Image>, ws: seq<World>, steps: seq<Step>, t: nat)
    requires Clean(images) && Run(images, ws, steps) && t < |steps| && steps[t].act == Cleared
    ensures forall p :: p in ws[t + 1].files ==> p.top == LOCK || p.top == TMP
    ensures forall u, p :: u in images && p in images[u] ==> p !in ws[t + 1].files
  {
    RunCovered(images, ws, steps, t);
    assert StepAt(images, ws, steps, t);
    assert Covered(ws[t].files, ws[t].procs[steps[t].proc]);
  }

  // ---------- The temporary file ----------

  predicate UsesTmp(pc: Pc) {
    pc == Writing || pc.Extracting? || pc == Failing
  }

  /** The temporary file is there only while a process is filling the directory. */
  ghost predicate TmpInUse(w: World) {
    TMP_PATH in w.files ==> exists i :: 0 <= i < |w.procs| && UsesTmp(w.procs[i].pc)
  }

  lemma TmpStays(images: map<string, Image>, w: World, w': World, i: nat, act: Act)
    requires Clean(images) && Sound(images, w) && i < |w.procs| && Acts(images, w, w', i, act) && act != Crash && TmpInUse(w)
    ensures TmpInUse(w')
  {
    if TMP_PATH in w'.files {
      if UsesTmp(w'.procs[i].pc) {
      } else if TMP_PATH in w.files {
        var j :| 0 <= j < |w.procs| && UsesTmp(w.procs[j].pc);
        if j != i {
          assert w'.procs[j] == w.procs[j];
        }
      }
    }
  }

  /** Unless a process crashes, the temporary file never outlasts the extraction it belongs to. */
  lemma {:induction false} NoTmpIsLeft(images: map<string, Image>, ws: seq<World>, steps: seq<Step>, t: nat)
    requires Clean(images) && Run(images, ws, steps) && t < |ws| && forall u :: 0 <= u < t ==> steps[u].act != Crash
    ensures TmpInUse(ws[t])
  {
    if t > 0 {
      NoTmpIsLeft(images, ws, steps, t - 1);
      RunSound(images, ws, steps, t - 1);
      assert StepAt(images, ws, steps, t - 1);
      TmpStays(images, ws[t - 1], ws[t], steps[t - 1].proc, steps[t - 1].act);
    }
  }

  // ---------- Control files are files ----------

  /** Nothing lies below the names of the control files. */
  ghost predicate Plain(files: map<Path, File>) {
    forall p :: p in files && (p.top == LOCK || p.top == INIT || p.top == TMP) ==> p.rest == ""
  }

  lemma PlainStays(images: map<string, Image>, w: World, w': World, i: nat, act: Act)
    requires Clean(images) && Known(images, w) && i < |w.procs| && Acts(images, w, w', i, act) && Plain(w.files)
    ensures Plain(w'.files)
  {
  }

  lemma {:induction false} RunPlain(images: map<string, Image>, ws: seq<World>, steps: seq<Step>, t: nat)
    requires Clean(images) && Run(images, ws, steps) && t < |ws|
    ensures Plain(ws[t].files)
  {
    if t > 0 {
      RunPlain(images, ws, steps, t - 1);
      RunSound(images, ws, steps, t - 1);
      assert StepAt(images, ws, steps, t - 1);
      PlainStays(images, ws[t - 1], ws[t], steps[t - 1].proc, steps[t - 1].act);
    }
  }

  // ---------- What a success leaves ----------

  /** The files that belong neither to the image nor to the protocol. */
  ghost function Strays(files: map<Path, File>, image: Image): set<Path> {
    set p | p in files && p !in image && p != LOCK_PATH && p != INIT_PATH && p != TMP_PATH
  }

  predicate Fills(pc: Pc) {
    pc == Writing || pc.Extracting?
  }

  /** Having begun to fill, a process is filling still, with the strays it found, or it will not fill again. */
  ghost predicate FillsOn(images: map<string, Image>, w: World, i: nat, u: string, strays: set<Path>) {
    && i < |w.procs| && w.procs[i].url == u && u in images
    && if Fills(w.procs[i].pc) then Strays(w.files, images[u]) == strays
       else w.procs[i].pc in {Failing, Unlocking, Sleeping, Returning, Gone}
  }

  ghost predicate ActsHere(images: map<string, Image>, w: World, w': World, i: nat, act: Act) {
    i < |w.procs| && w.procs[i].url in images && Acts(images, w, w', i, act)
  }

  lemma OwnFills(images: map<string, Image>, w: World, w': World, i: nat, act: Act, u: string, strays: set<Path>)
    requires Clean(images) && Known(images, w) && ActsHere(images, w, w', i, act) && FillsOn(images, w, i, u, strays)
    ensures FillsOn(images, w', i, u, strays)
  {
    assert Strays(w'.files, images[u]) == Strays(w.files, images[u]) || !Fills(w'.procs[i].pc);
  }

  lemma FillsOnStays(images: map<string, Image>, w: World, w': World, j: nat, act: Act, i: nat, u: string, strays: set<Path>)
    requires Clean(images) && Sound(images, w) && ActsHere(images, w, w', j, act) && FillsOn(images, w, i, u, strays)
    ensures FillsOn(images, w', i, u, strays)
  {
    if i == j {
      OwnFills(images, w, w', i, act, u, strays);
    } else if Fills(w.procs[i].pc) {
      OthersAddNothing(images, w, w', j, act, i);
    }
  }

  lemma {:induction false} RunFills(images: map<string, Image>, ws: seq<World>, steps: seq<Step>, s: nat, t: nat, i: nat, u: string, strays: set<Path>)
    requires Clean(images) && Run(images, ws, steps) && s <= t < |ws| && FillsOn(images, ws[s], i, u, strays)
    ensures FillsOn(images, ws[t], i, u, strays)
    decreases t - s
  {
    if s < t {
      RunFills(images, ws, steps, s, t - 1, i, u, strays);
      RunSound(images, ws, steps, t - 1);
      assert StepAt(images, ws, steps, t - 1);
      FillsOnStays(images, ws[t - 1], ws[t], steps[t - 1].proc, steps[t - 1].act, i, u, strays);
    }
  }

  /** A process begins to fill: its clearing is done, or it has found no sentinel. */
  predicate Begins(act: Act) {
    act == Cleared || act == Missing
  }

  /** Everything of the image is there when the sentinel is put in place. */
  lemma RenameCompletes(images: map<string, Image>, w: World, w': World, i: nat)
    requires Clean(images) && Sound(images, w) && ActsHere(images, w, w', i, Rename)
    ensures Complete(w'.files, images[w.procs[i].url]) && LOCK_PATH in w'.files && INIT_PATH in w'.files && TMP_PATH !in w'.files
    ensures Strays(w'.files, images[w.procs[i].url]) == Strays(w.files, images[w.procs[i].url])
  {
    assert Progress(images, w.files, w.procs[i]);
    assert Holds(w.procs[i]);
  }

  /**
   * A success leaves the image, the lock file and the sentinel, and beside them exactly the strays that were there when the
   * process began to fill the directory.
   */
  lemma LeavesImageAndStrays(images: map<string, Image>, ws: seq<World>, steps: seq<Step>, s: nat, t: nat, i: nat)
    requires Clean(images) && Run(images, ws, steps) && s < t < |steps|
    requires steps[s].proc == i && Begins(steps[s].act) && steps[t] == Step(i, Rename)
    ensures i < |ws[s].procs| && ws[s].procs[i].url in images
    ensures var image := images[ws[s].procs[i].url];
            && Complete(ws[t + 1].files, image)
            && ws[t + 1].files.Keys == image.Keys + {LOCK_PATH, INIT_PATH} + Strays(ws[s].files, image)
  {
    assert StepAt(images, ws, steps, s) && StepAt(images, ws, steps, t);
    var u := ws[s].procs[i].url;
    assert FillsOn(images, ws[s + 1], i, u, Strays(ws[s].files, images[u]));
    RunFills(images, ws, steps, s + 1, t, i, u, Strays(ws[s].files, images[u]));
    RunSound(images, ws, steps, t);
    RenameCompletes(images, ws[t], ws[t + 1], i);
  }

  /** A success after a clearing leaves exactly the image, the lock file and the sentinel: nothing of the old image remains. */
  lemma ReplacedEntirely(images: map<string, Image>, ws: seq<World>, steps: seq<Step>, s: nat, t: nat, i: nat)
    requires Clean(images) && Run(images, ws, steps) && s < t < |steps|
    requires steps[s] == Step(i, Cleared) && steps[t] == Step(i, Rename)
    ensures i < |ws[s].procs| && ws[s].procs[i].url in images
    ensures var image := images[ws[s].procs[i].url];
            Complete(ws[t + 1].files, image) && ws[t + 1].files.Keys == image.Keys + {LOCK_PATH, INIT_PATH}
  {
    LeavesImageAndStrays(images, ws, steps, s, t, i);
    ClearingClears(images, ws, steps, s);
    RunPlain(images, ws, steps, s);
    assert StepAt(images, ws, steps, s);
  }

  // ---------- Successes without a clearing ----------

  /** A success leaves exactly its image, the lock file and the sentinel. */
  ghost predicate PureAt(images: map<string, Image>, ws: seq<World>, steps: seq<Step>, t: nat) {
    t < |steps| && t + 1 < |ws| && (steps[t].act == Rename ==>
      && steps[t].proc < |ws[t].procs| && ws[t].procs[steps[t].proc].url in images
      && ws[t + 1].files.Keys == images[ws[t].procs[steps[t].proc].url].Keys + {LOCK_PATH, INIT_PATH})
  }

  ghost predicate Pure(images: map<string, Image>) {
    forall ws, steps, t: nat :: Run(images, ws, steps) && t < |steps| ==> PureAt(images, ws, steps, t)
  }

  /** All images bring the same files. */
  ghost predicate SameFiles(images: map<string, Image>) {
    forall a, b :: a in images && b in images ==> images[a].Keys == images[b].Keys
  }

  /** Only files of this set, and those of the protocol. */
  ghost predicate Within(files: map<Path, File>, all: set<Path>) {
    files.Keys <= all + {LOCK_PATH, INIT_PATH, TMP_PATH}
  }

  lemma {:induction false} RunWithin(images: map<string, Image>, ws: seq<World>, steps: seq<Step>, all: set<Path>, t: nat)
    requires Clean(images) && Run(images, ws, steps) && t < |ws| && forall u :: u in images ==> images[u].Keys <= all
    ensures Within(ws[t].files, all)
  {
    if t > 0 {
      RunWithin(images, ws, steps, all, t - 1);
      RunSound(images, ws, steps, t - 1);
      assert StepAt(images, ws, steps, t - 1);
    }
  }

  lemma SameFilesArePure(images: map<string, Image>, ws: seq<World>, steps: seq<Step>, t: nat)
    requires Clean(images) && SameFiles(images) && Run(images, ws, steps) && t < |steps|
    ensures PureAt(images, ws, steps, t)
  {
    assert StepAt(images, ws, steps, t);
    if steps[t].act == Rename {
      var i := steps[t].proc;
      RunWithin(images, ws, steps, images[ws[t].procs[i].url].Keys, t + 1);
      RunSound(images, ws, steps, t);
      RenameCompletes(images, ws[t], ws[t + 1], i);
    }
  }

  /** The first process has failed and sleeps, the second is extracting, and a file of the first is there. */
  ghost predicate Mixing(images: map<string, Image>, w: World, a: string, b: string, p: Path, left: set<Path>)
    requires b in images
  {
    && w.procs == [Proc(a, Sleeping, Some(0)), Proc(b, Pc.Extracting(left), Some(0))]
    && left <= images[b].Keys && p in w.files && TMP_PATH in w.files
  }

  lemma {:induction false} MixAll(images: map<string, Image>, w: World, a: string, b: string, p: Path, left: set<Path>) returns (w': World)
    requires Clean(images) && a in images && b in images && Reachable(images, w) && Mixing(images, w, a, b, p, left)
    ensures Reachable(images, w') && Mixing(images, w', a, b, p, {})
    decreases |left|
  {
    w' := w;
    if left == {} {
    } else {
      var q :| q in left;
      var inode := FreshInode(w.files);
      inode := if q in w.files then w.files[q].inode else inode;
      var next := World(w.files[q := File(inode, images[b][q])],
                        [Proc(a, Sleeping, Some(0)), Proc(b, Pc.Extracting(left - {q}), Some(0))]);
      ReachOn(images, w, Step(1, WriteFile(q)), next);
      w' := MixAll(images, next, a, b, p, left - {q});
    }
  }

  /** The first process writes a file and fails. */
  lemma FailedRun(images: map<string, Image>, a: string, b: string, p: Path) returns (w: World)
    requires Clean(images) && a in images && b in images && p in images[a]
    ensures Reachable(images, w) && w.procs == [Proc(a, Sleeping, Some(0)), Proc(b, Start, None)]
    ensures p in w.files && w.files.Keys <= {LOCK_PATH} + images[a].Keys && LOCK_PATH in w.files && w.files[LOCK_PATH].inode == 0
  {
    var second := Proc(b, Start, None);
    var w1 := Begin(images, a, b);
    var w2 := WriteOne(images, w1, a, b, images[a].Keys, p);
    var w3 := World(w2.files, [Proc(a, Failing, Some(0)), second]);
    ReachOn(images, w2, Step(0, Fail), w3);
    var w4 := World(w2.files - {TMP_PATH}, [Proc(a, Unlocking, Some(0)), second]);
    ReachOn(images, w3, Step(0, RemoveTmp), w4);
    w := World(w4.files, [Proc(a, Sleeping, Some(0)), second]);
    ReachOn(images, w4, Step(0, Unlock), w);
  }

  lemma MixLocked(images: map<string, Image>, a: string, b: string, p: Path) returns (w: World)
    requires Clean(images) && a in images && b in images && p in images[a]
    ensures Reachable(images, w) && w.procs == [Proc(a, Sleeping, Some(0)), Proc(b, Locked, Some(0))]
    ensures p in w.files && INIT_PATH !in w.files
  {
    var w0 := FailedRun(images, a, b, p);
    var w1 := World(w0.files, [Proc(a, Sleeping, Some(0)), Proc(b, Opened, Some(0))]);
    ReachOn(images, w0, Step(1, Open), w1);
    w := World(w0.files, [Proc(a, Sleeping, Some(0)), Proc(b, Locked, Some(0))]);
    ReachOn(images, w1, Step(1, Flock), w);
  }

  /** The second process finds no sentinel and begins to extract beside what the first has left. */
  lemma MixBegins(images: map<string, Image>, a: string, b: string, p: Path) returns (w: World)
    requires Clean(images) && a in images && b in images && p in images[a]
    ensures Reachable(images, w) && Mixing(images, w, a, b, p, images[b].Keys)
  {
    var w0 := MixLocked(images, a, b, p);
    var first := Proc(a, Sleeping, Some(0));
    var w1 := World(w0.files, [first, Proc(b, Writing, Some(0))]);
    ReachOn(images, w0, Step(1, Missing), w1);
    var inode := FreshInode(w0.files);
    inode := if TMP_PATH in w0.files then w0.files[TMP_PATH].inode else inode;
    w := World(w0.files[TMP_PATH := File(inode, b + "\n")], [first, Proc(b, Pc.Extracting(images[b].Keys), Some(0))]);
    ReachOn(images, w1, Step(1, WriteTmp), w);
  }

  /** A run in which a success leaves a file of another image, brought by an extraction that failed before. */
  lemma MixedRun(images: map<string, Image>, a: string, b: string, p: Path) returns (ws: seq<World>, steps: seq<Step>)
    requires Clean(images) && a in images && b in images && p in images[a] && p !in images[b]
    ensures |steps| > 0 && Run(images, ws, steps) && !PureAt(images, ws, steps, |steps| - 1)
  {
    var w1 := MixBegins(images, a, b, p);
    var w := MixAll(images, w1, a, b, p, images[b].Keys);
    var before, taken :| Run(images, before, taken) && before[|taken|] == w;
    var files := w.files[INIT_PATH := w.files[TMP_PATH]] - {TMP_PATH};
    var w' := World(files, [Proc(a, Sleeping, Some(0)), Proc(b, Returning, Some(0))]);
    RunGoesOn(images, before, taken, Step(1, Rename), w');
    ws, steps := before + [w'], taken + [Step(1, Rename)];
    assert ws[|steps| - 1] == w && p in ws[|steps| - 1 + 1].files;
  }

  /**
   * Every success leaves exactly its image if and only if all images bring the same files. What an extraction that failed or
   * crashed has written is not cleared when no sentinel is there, so it stays beside the next image.
   */
  lemma PureExactlyWhenSameFiles(images: map<string, Image>)
    requires Clean(images)
    ensures Pure(images) <==> SameFiles(images)
  {
    if SameFiles(images) {
      forall ws, steps, t: nat | Run(images, ws, steps) && t < |steps| ensures PureAt(images, ws, steps, t) {
        SameFilesArePure(images, ws, steps, t);
      }
    } else {
      var u, v :| u in images && v in images && images[u].Keys != images[v].Keys;
      var a, b := if images[u].Keys <= images[v].Keys then v else u, if images[u].Keys <= images[v].Keys then u else v;
      var p :| p in images[a] && p !in images[b];
      var ws, steps := MixedRun(images, a, b, p);
    }
  }
}
