/** The run that breaks the sentinel when an image brings something listed before it, for any two images. */
module ExtractUnsafe {
  import opened ApiTypes
  import opened Names
  import opened Extract
  import opened ExtractProofs

  lemma RunGoesOn(images: map<string, Image>, ws: seq<World>, steps: seq<Step>, step: Step, w: World)
    requires Run(images, ws, steps) && Steps(images, ws[|steps|], w, step)
    ensures Run(images, ws + [w], steps + [step])
  {
    var longer, all := ws + [w], steps + [step];
    forall t: nat | t < |all| ensures StepAt(images, longer, all, t) {
      if t < |steps| {
        assert StepAt(images, ws, steps, t);
      }
    }
  }

  /** A state some run ends in. */
  ghost predicate Reachable(images: map<string, Image>, w: World) {
    exists ws, steps :: Run(images, ws, steps) && ws[|steps|] == w
  }

  lemma ReachOn(images: map<string, Image>, w: World, step: Step, w': World)
    requires Reachable(images, w) && Steps(images, w, w', step)
    ensures Reachable(images, w')
  {
    var ws, steps :| Run(images, ws, steps) && ws[|steps|] == w;
    RunGoesOn(images, ws, steps, step, w');
    assert (ws + [w'])[|steps + [step]|] == w';
  }

  lemma {:induction false} FreshInode(files: map<Path, File>) returns (inode: nat)
    ensures Unused(files, inode) && forall p :: p in files ==> files[p].inode < inode
  {
    inode := 0;
    if p :| p in files {
      var smaller := FreshInode(files - {p});
      inode := if files[p].inode < smaller then smaller else files[p].inode + 1;
      forall q | q in files ensures files[q].inode < inode {
        assert q != p ==> q in files - {p};
      }
    }
  }

  lemma {:induction false} ListingExists(tops: set<string>) returns (names: seq<string>)
    ensures Listing(names, tops)
  {
    names := [];
    if n :| n in tops {
      var rest := ListingExists(tops - {n});
      names := Inserted(rest, n);
    }
  }

  lemma {:induction false} Inserted(names: seq<string>, name: string) returns (r: seq<string>)
    requires Sorted(names) && name !in names
    ensures Sorted(r) && forall n :: n in r <==> n == name || n in names
  {
    if names == [] || Before(name, names[0]) {
      r := [name] + names;
      forall i | 1 <= i < |names| && names != [] ensures Before(name, names[i]) {
        BeforeIsTransitive(name, names[0], names[i]);
      }
    } else {
      BeforeIsTotal(name, names[0]);
      var rest := Inserted(names[1..], name);
      r := [names[0]] + rest;
      assert names == [names[0]] + names[1..];
      forall j | 0 <= j < |rest| ensures Before(names[0], rest[j]) {
        assert rest[j] in rest;
        if rest[j] != name {
          var q :| 0 <= q < |names[1..]| && names[1..][q] == rest[j];
          assert names[q + 1] == rest[j];
        }
      }
    }
  }

  // ---------- A full extraction ----------

  /** The first process is extracting `a`, with `left` still to write; the second has not started. */
  ghost predicate Extracting(images: map<string, Image>, w: World, a: string, b: string, left: set<Path>)
    requires a in images && b in images
  {
    && w.procs == [Proc(a, Pc.Extracting(left), Some(0)), Proc(b, Start, None)]
    && left <= images[a].Keys
    && LOCK_PATH in w.files && w.files[LOCK_PATH].inode == 0
    && TMP_PATH in w.files && w.files[TMP_PATH].content == a + "\n"
    && w.files.Keys == {LOCK_PATH, TMP_PATH} + (images[a].Keys - left)
    && forall p :: p in images[a] && p !in left ==> w.files[p].content == images[a][p]
  }

  lemma BeginLocked(images: map<string, Image>, a: string, b: string) returns (w: World)
    requires a in images && b in images
    ensures Reachable(images, w)
    ensures w == World(map[LOCK_PATH := File(0, "")], [Proc(a, Locked, Some(0)), Proc(b, Start, None)])
  {
    var second := Proc(b, Start, None);
    var w0 := World(map[], [Proc(a, Start, None), second]);
    var none: seq<Step> := [];
    assert Run(images, [w0], none) && [w0][|none|] == w0;
    var locked := map[LOCK_PATH := File(0, "")];
    var w1 := World(locked, [Proc(a, Opened, Some(0)), second]);
    ReachOn(images, w0, Step(0, Open), w1);
    w := World(locked, [Proc(a, Locked, Some(0)), second]);
    ReachOn(images, w1, Step(0, Flock), w);
  }

  lemma Begin(images: map<string, Image>, a: string, b: string) returns (w: World)
    requires Clean(images) && a in images && b in images
    ensures Reachable(images, w) && Extracting(images, w, a, b, images[a].Keys)
  {
    var second := Proc(b, Start, None);
    var locked := map[LOCK_PATH := File(0, "")];
    var w2 := BeginLocked(images, a, b);
    var w3 := World(locked, [Proc(a, Writing, Some(0)), second]);
    ReachOn(images, w2, Step(0, Missing), w3);
    w := World(locked[TMP_PATH := File(1, a + "\n")], [Proc(a, Pc.Extracting(images[a].Keys), Some(0)), second]);
    ReachOn(images, w3, Step(0, WriteTmp), w);
  }

  lemma WriteOne(images: map<string, Image>, w: World, a: string, b: string, left: set<Path>, p: Path) returns (w': World)
    requires Clean(images) && a in images && b in images && Reachable(images, w)
    requires Extracting(images, w, a, b, left) && p in left
    ensures Reachable(images, w') && Extracting(images, w', a, b, left - {p})
  {
    var inode := FreshInode(w.files);
    w' := World(w.files[p := File(inode, images[a][p])],
                [Proc(a, Pc.Extracting(left - {p}), Some(0)), Proc(b, Start, None)]);
    ReachOn(images, w, Step(0, WriteFile(p)), w');
  }

  lemma {:induction false} WriteAll(images: map<string, Image>, w: World, a: string, b: string, left: set<Path>) returns (w': World)
    requires Clean(images) && a in images && b in images && Reachable(images, w) && Extracting(images, w, a, b, left)
    ensures Reachable(images, w') && Extracting(images, w', a, b, {})
    decreases |left|
  {
    w' := w;
    if left == {} {
    } else {
      var p :| p in left;
      var next := WriteOne(images, w, a, b, left, p);
      w' := WriteAll(images, next, a, b, left - {p});
    }
  }

  // ---------- The second URL ----------

  /** The sentinel names `a`, the directory holds its image, and the second process is clearing it. */
  ghost predicate ClearingAll(images: map<string, Image>, w: World, a: string, b: string, todo: seq<string>)
    requires a in images && b in images
  {
    && w.procs == [Proc(a, Gone, None), Proc(b, Clearing(todo), Some(0))]
    && w.files.Keys == {LOCK_PATH, INIT_PATH} + images[a].Keys && w.files[INIT_PATH].content == a + "\n"
  }

  lemma Finish(images: map<string, Image>, w: World, a: string, b: string) returns (w': World)
    requires Clean(images) && a in images && b in images && Reachable(images, w) && Extracting(images, w, a, b, {})
    ensures Reachable(images, w') && w'.procs == [Proc(a, Gone, None), Proc(b, Start, None)]
    ensures w'.files.Keys == {LOCK_PATH, INIT_PATH} + images[a].Keys && w'.files[INIT_PATH].content == a + "\n"
    ensures w'.files[LOCK_PATH].inode == 0
  {
    var files := w.files[INIT_PATH := w.files[TMP_PATH]] - {TMP_PATH};
    var second := Proc(b, Start, None);
    var w1 := World(files, [Proc(a, Returning, Some(0)), second]);
    ReachOn(images, w, Step(0, Rename), w1);
    w' := World(files, [Proc(a, Gone, None), second]);
    ReachOn(images, w1, Step(0, Close), w');
  }

  lemma StartClearing(images: map<string, Image>, w: World, a: string, b: string) returns (w': World, todo: seq<string>)
    requires Clean(images) && a in images && b in images && a != b
    requires Reachable(images, w) && w.procs == [Proc(a, Gone, None), Proc(b, Start, None)]
    requires w.files.Keys == {LOCK_PATH, INIT_PATH} + images[a].Keys && w.files[INIT_PATH].content == a + "\n"
    requires w.files[LOCK_PATH].inode == 0
    ensures Reachable(images, w') && ClearingAll(images, w', a, b, todo) && Listing(todo, Tops(w'.files))
  {
    var first := Proc(a, Gone, None);
    var w1 := World(w.files, [first, Proc(b, Opened, Some(0))]);
    ReachOn(images, w, Step(1, Open), w1);
    var w2 := World(w.files, [first, Proc(b, Locked, Some(0))]);
    ReachOn(images, w1, Step(1, Flock), w2);
    todo := ListingExists(Tops(w.files));
    w' := World(w.files, [first, Proc(b, Clearing(todo), Some(0))]);
    LineRoundTrip(a);
    ReachOn(images, w2, Step(1, Stale(todo)), w');
  }

  lemma SkipLock(images: map<string, Image>, w: World, a: string, b: string, todo: seq<string>) returns (w': World)
    requires a in images && b in images && Reachable(images, w) && ClearingAll(images, w, a, b, todo)
    requires todo != [] && todo[0] == LOCK
    ensures Reachable(images, w') && ClearingAll(images, w', a, b, todo[1..]) && w'.files == w.files
  {
    w' := World(w.files, [Proc(a, Gone, None), Proc(b, Clearing(todo[1..]), Some(0))]);
    ReachOn(images, w, Step(1, Skip), w');
  }

  /** The first name that is not kept is listed before the sentinel, if any is; only the lock file can come earlier. */
  lemma FirstName(todo: seq<string>, tops: set<string>, top: string) returns (d: nat)
    requires Listing(todo, tops) && top in tops && top != LOCK && Before(top, INIT) && TMP !in tops
    ensures d < |todo| && (d == 0 || (d == 1 && todo[0] == LOCK))
    ensures !Kept(todo[d]) && todo[d] != INIT && todo[d] in tops
  {
    var k :| 0 <= k < |todo| && todo[k] == top;
    d := if todo[0] == LOCK then 1 else 0;
    var rest := todo[d..];
    assert rest[k - d] == top;
    FirstIsEarly(rest, k - d);
    if d == 1 {
      BeforeIsStrict(todo[0], todo[1]);
    }
    assert todo[d] in todo;
  }

  /** The first name that is removed belongs to the image when something of the image is listed before the sentinel. */
  lemma FirstRemoved(images: map<string, Image>, w: World, a: string, b: string, todo: seq<string>, p: Path) returns (w': World, rest: seq<string>)
    requires Clean(images) && a in images && b in images && Reachable(images, w) && ClearingAll(images, w, a, b, todo)
    requires Listing(todo, Tops(w.files)) && p in images[a] && Before(p.top, INIT)
    ensures Reachable(images, w') && ClearingAll(images, w', a, b, rest) && w'.files == w.files
    ensures rest != [] && !Kept(rest[0]) && rest[0] != INIT && rest[0] in Tops(w.files)
  {
    assert p.top in Tops(w.files) && TMP !in Tops(w.files);
    var d := FirstName(todo, Tops(w.files), p.top);
    if d == 1 {
      w' := SkipLock(images, w, a, b, todo);
      rest := todo[1..];
    } else {
      w', rest := w, todo;
    }
  }

  lemma FirstIsEarly(names: seq<string>, k: nat)
    requires Sorted(names) && k < |names| && Before(names[k], INIT)
    ensures Before(names[0], INIT) && names[0] != INIT
  {
    if k > 0 {
      BeforeIsTransitive(names[0], names[k], INIT);
    }
    BeforeIsStrict(names[0], INIT);
  }

  /** Whatever the two images are, the sentinel can be made false. */
  lemma UnsafeRun(images: map<string, Image>, a: string, b: string, p: Path) returns (w: World)
    requires Clean(images) && a in images && b in images && a != b && p in images[a] && Before(p.top, INIT)
    ensures Reachable(images, w) && !SentinelTrue(images, w)
  {
    var w1 := Begin(images, a, b);
    var w2 := WriteAll(images, w1, a, b, images[a].Keys);
    var w3 := Finish(images, w2, a, b);
    var w4, todo := StartClearing(images, w3, a, b);
    var w5, rest := FirstRemoved(images, w4, a, b, todo, p);
    var path :| path in w5.files && path.top == rest[0];
    assert path in images[a];
    w := World(w5.files - {path}, w5.procs);
    ReachOn(images, w5, Step(1, RemoveOne(path)), w);
    LineRoundTrip(a);
  }

  // ---------- Exactly when ----------

  ghost predicate Safe(images: map<string, Image>) {
    forall ws, steps, t: nat :: Run(images, ws, steps) && t < |ws| ==> SentinelTrue(images, ws[t])
  }

  /** At most one URL is in play. */
  ghost predicate OneImage(images: map<string, Image>) {
    forall a, b :: a in images && b in images ==> a == b
  }

  lemma OneImageIsSafe(images: map<string, Image>, ws: seq<World>, steps: seq<Step>, t: nat)
    requires Clean(images) && OneImage(images) && Run(images, ws, steps) && t < |ws|
    ensures SentinelTrue(images, ws[t])
  {
    var u := if |ws[0].procs| > 0 then ws[0].procs[0].url else "";
    AloneIsSafe(images, ws, steps, u, t);
  }

  /**
   * The sentinel is crash safe if and only if at most one URL is in play or everything any image brings is listed after the
   * sentinel's own name: clearing goes through the directory in that order.
   */
  lemma SafeExactlyWhenListedAfter(images: map<string, Image>)
    requires Clean(images)
    ensures Safe(images) <==> OneImage(images) || AfterSentinel(images)
  {
    if OneImage(images) || AfterSentinel(images) {
      forall ws, steps, t: nat | Run(images, ws, steps) && t < |ws| ensures SentinelTrue(images, ws[t]) {
        if AfterSentinel(images) {
          CrashSafe(images, ws, steps, t);
        } else {
          OneImageIsSafe(images, ws, steps, t);
        }
      }
    } else {
      var u, p :| u in images && p in images[u] && !Before(INIT, p.top);
      BeforeIsTotal(INIT, p.top);
      var other :| other in images && other != u;
      var w := UnsafeRun(images, u, other, p);
      var ws, steps :| Run(images, ws, steps) && ws[|steps|] == w;
    }
  }
}
