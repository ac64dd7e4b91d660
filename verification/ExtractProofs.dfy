/** The extract protocol is safe exactly when the sentinel is listed before everything an image brings. */
module ExtractProofs {
  import opened ApiTypes
  import opened Names
  import opened Extract

  // ---------- Mutual exclusion ----------

  ghost predicate OneLock(w: World) {
    forall i :: 0 <= i < |w.procs| ==>
      && (Holds(w.procs[i]) ==> w.procs[i].fd.Some?)
      && (w.procs[i].fd.Some? ==> LOCK_PATH in w.files && w.files[LOCK_PATH].inode == w.procs[i].fd.value)
      && (w.procs[i].pc == Start || w.procs[i].pc == Gone ==> w.procs[i].fd == None)
      && (w.procs[i].pc == Opened || w.procs[i].pc == Sleeping ==> w.procs[i].fd.Some?)
  }

  ghost predicate Exclusive(w: World) {
    forall i, j :: 0 <= i < |w.procs| && 0 <= j < |w.procs| && Holds(w.procs[i]) && Holds(w.procs[j]) ==> i == j
  }

  ghost predicate Known(images: map<string, Image>, w: World) {
    forall i :: 0 <= i < |w.procs| ==>
      && w.procs[i].url in images
      && (w.procs[i].pc.Extracting? ==> w.procs[i].pc.left <= images[w.procs[i].url].Keys)
  }

  /** The lock file is never removed nor replaced. */
  lemma LockStays(images: map<string, Image>, w: World, w': World, i: nat, act: Act)
    requires Clean(images) && Known(images, w) && i < |w.procs| && Acts(images, w, w', i, act)
    requires LOCK_PATH in w.files
    ensures LOCK_PATH in w'.files && w'.files[LOCK_PATH].inode == w.files[LOCK_PATH].inode
  {
  }

  lemma KnownStays(images: map<string, Image>, w: World, w': World, i: nat, act: Act)
    requires Known(images, w) && i < |w.procs| && Acts(images, w, w', i, act)
    ensures Known(images, w')
  {
  }

  lemma OneLockStays(images: map<string, Image>, w: World, w': World, i: nat, act: Act)
    requires Clean(images) && Known(images, w) && i < |w.procs| && Acts(images, w, w', i, act)
    requires OneLock(w) && Exclusive(w)
    ensures OneLock(w') && Exclusive(w')
  {
    if LOCK_PATH in w.files {
      LockStays(images, w, w', i, act);
    }
    forall j | 0 <= j < |w'.procs|
      ensures
        && (Holds(w'.procs[j]) ==> w'.procs[j].fd.Some?)
        && (w'.procs[j].fd.Some? ==> LOCK_PATH in w'.files && w'.files[LOCK_PATH].inode == w'.procs[j].fd.value)
        && (w'.procs[j].pc == Start || w'.procs[j].pc == Gone ==> w'.procs[j].fd == None)
        && (w'.procs[j].pc == Opened || w'.procs[j].pc == Sleeping ==> w'.procs[j].fd.Some?)
    {
      assert j != i ==> w'.procs[j] == w.procs[j];
    }
    forall j, k | 0 <= j < |w'.procs| && 0 <= k < |w'.procs| && Holds(w'.procs[j]) && Holds(w'.procs[k]) ensures j == k {
      assert j != i ==> w'.procs[j] == w.procs[j];
      assert k != i ==> w'.procs[k] == w.procs[k];
    }
  }

  // ---------- The sentinel ----------

  /** What a process in the middle of an extraction may rely on. */
  ghost predicate Progress(images: map<string, Image>, files: map<Path, File>, p: Proc)
    requires p.url in images
  {
    match p.pc
    case Clearing(todo) => Sorted(todo) && (INIT_PATH in files ==> INIT in todo)
    case Writing => INIT_PATH !in files
    case Extracting(left) =>
      && INIT_PATH !in files && TMP_PATH in files && files[TMP_PATH].content == p.url + "\n"
      && forall path :: path in images[p.url] && path !in left ==> path in files && files[path].content == images[p.url][path]
    case Failing => INIT_PATH !in files
    case _ => true
  }

  ghost predicate AllProgress(images: map<string, Image>, w: World)
    requires Known(images, w)
  {
    forall i :: 0 <= i < |w.procs| ==> Progress(images, w.files, w.procs[i])
  }

  /** What holds in every state, whatever the images bring. */
  ghost predicate Sound(images: map<string, Image>, w: World) {
    Known(images, w) && OneLock(w) && Exclusive(w) && AllProgress(images, w)
  }

  ghost predicate Inv(images: map<string, Image>, w: World) {
    && Sound(images, w)
    && (INIT_PATH in w.files ==>
          exists u :: u in images && w.files[INIT_PATH].content == u + "\n" && Complete(w.files, images[u]))
  }

  lemma SentinelFollows(images: map<string, Image>, w: World)
    requires Clean(images) && Inv(images, w)
    ensures SentinelTrue(images, w)
  {
    if INIT_PATH in w.files {
      var u :| u in images && w.files[INIT_PATH].content == u + "\n" && Complete(w.files, images[u]);
      LineRoundTrip(u);
    }
  }

  /** Steps that change files are taken by the holder of the lock, except for creating the lock file. */
  lemma OnlyHolderWrites(images: map<string, Image>, w: World, w': World, i: nat, act: Act)
    requires i < |w.procs| && w.procs[i].url in images && Acts(images, w, w', i, act) && w'.files != w.files
    ensures Holds(w.procs[i]) || (act == Open && LOCK_PATH !in w.files && w'.files == w.files[LOCK_PATH := w'.files[LOCK_PATH]])
  {
  }

  lemma IdleProgress(images: map<string, Image>, w: World, w': World, i: nat, act: Act, j: nat)
    requires Clean(images) && Sound(images, w) && i < |w.procs| && Acts(images, w, w', i, act)
    requires j < |w.procs| && j != i
    ensures Progress(images, w'.files, w'.procs[j])
  {
    assert w'.procs[j] == w.procs[j];
    assert Progress(images, w.files, w.procs[j]);
    if w'.files != w.files {
      OnlyHolderWrites(images, w, w', i, act);
    }
  }

  lemma OwnProgress(images: map<string, Image>, w: World, w': World, i: nat, act: Act)
    requires Clean(images) && Sound(images, w) && i < |w.procs| && Acts(images, w, w', i, act)
    ensures Progress(images, w'.files, w'.procs[i])
  {
    assert Progress(images, w.files, w.procs[i]);
    match act
    case Stale(names) => assert INIT_PATH.top in Tops(w.files);
    case NextEntry => assert INIT_PATH in w.files ==> INIT_PATH.top in Tops(w.files);
    case _ =>
  }

  ghost predicate Sentinel(images: map<string, Image>, files: map<Path, File>, u: string) {
    u in images && INIT_PATH in files && files[INIT_PATH].content == u + "\n" && Complete(files, images[u])
  }

  /** While the sentinel stands, the entry being removed is not part of any image: those are listed later. */
  lemma RemovesNoPayload(images: map<string, Image>, files: map<Path, File>, p: Proc, path: Path)
    requires AfterSentinel(images) && p.pc.Clearing? && p.pc.todo != [] && path.top == p.pc.todo[0]
    requires Sorted(p.pc.todo) && INIT in p.pc.todo
    ensures forall u :: u in images ==> path !in images[u]
  {
    var k :| 0 <= k < |p.pc.todo| && p.pc.todo[k] == INIT;
    if k > 0 {
      BeforeIsStrict(path.top, INIT);
    }
    forall u | u in images ensures path !in images[u] {
      if path in images[u] {
        BeforeIsStrict(INIT, path.top);
      }
    }
  }

  lemma SentinelKept(images: map<string, Image>, w: World, w': World, i: nat, act: Act, u: string)
    requires Clean(images) && Inv(images, w) && i < |w.procs| && Acts(images, w, w', i, act)
    requires AfterSentinel(images) || !act.RemoveOne?
    requires Sentinel(images, w.files, u) && INIT_PATH in w'.files
    ensures Sentinel(images, w'.files, u)
  {
    assert Progress(images, w.files, w.procs[i]);
    if act.RemoveOne? {
      RemovesNoPayload(images, w.files, w.procs[i], act.path);
    }
  }

  lemma SentinelSet(images: map<string, Image>, w: World, w': World, i: nat, act: Act)
    requires Clean(images) && Inv(images, w) && i < |w.procs| && Acts(images, w, w', i, act)
    requires INIT_PATH !in w.files && INIT_PATH in w'.files
    ensures act == Rename && Sentinel(images, w'.files, w.procs[i].url)
  {
    assert Progress(images, w.files, w.procs[i]);
  }

  lemma SoundStays(images: map<string, Image>, w: World, w': World, i: nat, act: Act)
    requires Clean(images) && Sound(images, w) && i < |w.procs| && Acts(images, w, w', i, act)
    ensures Sound(images, w')
  {
    KnownStays(images, w, w', i, act);
    OneLockStays(images, w, w', i, act);
    forall j | 0 <= j < |w'.procs| ensures Progress(images, w'.files, w'.procs[j]) {
      if j == i {
        OwnProgress(images, w, w', i, act);
      } else {
        IdleProgress(images, w, w', i, act, j);
      }
    }
  }

  lemma InvStays(images: map<string, Image>, w: World, w': World, i: nat, act: Act)
    requires Clean(images) && Inv(images, w) && i < |w.procs| && Acts(images, w, w', i, act)
    requires AfterSentinel(images) || !act.RemoveOne?
    ensures Inv(images, w')
  {
    SoundStays(images, w, w', i, act);
    if INIT_PATH in w'.files {
      if INIT_PATH in w.files {
        var u :| u in images && w.files[INIT_PATH].content == u + "\n" && Complete(w.files, images[u]);
        SentinelKept(images, w, w', i, act, u);
      } else {
        SentinelSet(images, w, w', i, act);
      }
    }
  }

  lemma InitInv(images: map<string, Image>, w: World)
    requires Init(images, w)
    ensures Inv(images, w)
  {
  }

  lemma InvAt(images: map<string, Image>, ws: seq<World>, steps: seq<Step>, t: nat)
    requires Clean(images) && AfterSentinel(images) && Run(images, ws, steps) && t < |steps| && Inv(images, ws[t])
    ensures Inv(images, ws[t + 1])
  {
    assert StepAt(images, ws, steps, t);
    InvStays(images, ws[t], ws[t + 1], steps[t].proc, steps[t].act);
  }

  lemma {:induction false} RunInv(images: map<string, Image>, ws: seq<World>, steps: seq<Step>, t: nat)
    requires Clean(images) && AfterSentinel(images) && Run(images, ws, steps) && t < |ws|
    ensures Inv(images, ws[t])
    decreases t
  {
    if t == 0 {
      InitInv(images, ws[0]);
    } else {
      RunInv(images, ws, steps, t - 1);
      InvAt(images, ws, steps, t - 1);
    }
  }

  /** Crash safety: in every state of every run, a sentinel that names a URL is true. */
  lemma CrashSafe(images: map<string, Image>, ws: seq<World>, steps: seq<Step>, t: nat)
    requires Clean(images) && AfterSentinel(images) && Run(images, ws, steps) && t < |ws|
    ensures SentinelTrue(images, ws[t])
  {
    RunInv(images, ws, steps, t);
    SentinelFollows(images, ws[t]);
  }

  // ---------- Whatever the images are named ----------

  lemma {:induction false} RunSound(images: map<string, Image>, ws: seq<World>, steps: seq<Step>, t: nat)
    requires Clean(images) && Run(images, ws, steps) && t < |ws|
    ensures Sound(images, ws[t])
  {
    if t > 0 {
      RunSound(images, ws, steps, t - 1);
      assert StepAt(images, ws, steps, t - 1);
      SoundStays(images, ws[t - 1], ws[t], steps[t - 1].proc, steps[t - 1].act);
    }
  }

  /** All open handles refer to the one lock file, so at most one process is between flock and unlock. */
  lemma MutualExclusion(images: map<string, Image>, ws: seq<World>, steps: seq<Step>, t: nat, i: nat, j: nat)
    requires Clean(images) && Run(images, ws, steps) && t < |ws| && i < |ws[t].procs| && j < |ws[t].procs|
    ensures ws[t].procs[i].fd.Some? && ws[t].procs[j].fd.Some? ==> ws[t].procs[i].fd == ws[t].procs[j].fd
    ensures Holds(ws[t].procs[i]) && Holds(ws[t].procs[j]) ==> i == j
    ensures t < |steps| && ws[t + 1].files != ws[t].files && LOCK_PATH in ws[t].files ==>
              steps[t].proc < |ws[t].procs| && Holds(ws[t].procs[steps[t].proc])
  {
    RunSound(images, ws, steps, t);
    if t < |steps| && ws[t + 1].files != ws[t].files {
      assert StepAt(images, ws, steps, t);
      OnlyHolderWrites(images, ws[t], ws[t + 1], steps[t].proc, steps[t].act);
    }
  }

  // ---------- One URL ----------

  /** After the first success every holder has found the sentinel or is about to. */
  ghost predicate Settled(w: World) {
    INIT_PATH in w.files && LOCK_PATH in w.files
    && forall i :: 0 <= i < |w.procs| && Holds(w.procs[i]) ==> w.procs[i].pc == Locked || w.procs[i].pc == Returning
  }

  lemma SettledStays(images: map<string, Image>, w: World, w': World, i: nat, act: Act, u: string)
    requires Clean(images) && i < |w.procs| && u in images && w.procs[i].url == u && Acts(images, w, w', i, act)
    requires Settled(w) && Trim(w.files[INIT_PATH].content) == u
    ensures Settled(w') && w'.files == w.files && act != Rename
  {
    forall j | 0 <= j < |w'.procs| && Holds(w'.procs[j]) ensures w'.procs[j].pc == Locked || w'.procs[j].pc == Returning {
      assert j != i ==> w'.procs[j] == w.procs[j];
    }
  }

  ghost predicate OneUrl(w: World, u: string) {
    forall i :: 0 <= i < |w.procs| ==> w.procs[i].url == u
  }

  lemma {:induction false} UrlStays(images: map<string, Image>, ws: seq<World>, steps: seq<Step>, u: string, t: nat)
    requires Run(images, ws, steps) && OneUrl(ws[0], u) && t < |ws|
    ensures OneUrl(ws[t], u)
  {
    if t > 0 {
      UrlStays(images, ws, steps, u, t - 1);
      assert StepAt(images, ws, steps, t - 1);
    }
  }

  /** With one URL throughout nothing is ever cleared, and a sentinel names that URL. */
  ghost predicate Alone(images: map<string, Image>, w: World, u: string) {
    && Inv(images, w) && OneUrl(w, u)
    && (forall i :: 0 <= i < |w.procs| ==> !w.procs[i].pc.Clearing?)
    && (INIT_PATH in w.files ==> Sentinel(images, w.files, u))
  }

  lemma AloneStays(images: map<string, Image>, w: World, w': World, i: nat, act: Act, u: string)
    requires Clean(images) && Alone(images, w, u) && i < |w.procs| && Acts(images, w, w', i, act)
    ensures Alone(images, w', u)
  {
    InvStays(images, w, w', i, act);
    if INIT_PATH in w.files {
      LineRoundTrip(u);
    }
    if INIT_PATH in w'.files {
      if INIT_PATH in w.files {
        SentinelKept(images, w, w', i, act, u);
      } else {
        SentinelSet(images, w, w', i, act);
      }
    }
    forall j | 0 <= j < |w'.procs| ensures !w'.procs[j].pc.Clearing? {
      assert j != i ==> w'.procs[j] == w.procs[j];
    }
  }

  lemma {:induction false} RunAlone(images: map<string, Image>, ws: seq<World>, steps: seq<Step>, u: string, t: nat)
    requires Clean(images) && Run(images, ws, steps) && OneUrl(ws[0], u) && t < |ws|
    ensures Alone(images, ws[t], u)
    decreases t
  {
    if t == 0 {
      InitInv(images, ws[0]);
    } else {
      RunAlone(images, ws, steps, u, t - 1);
      assert StepAt(images, ws, steps, t - 1);
      AloneStays(images, ws[t - 1], ws[t], steps[t - 1].proc, steps[t - 1].act, u);
    }
  }

  /** With one URL throughout the sentinel is crash safe, whatever the image brings. */
  lemma AloneIsSafe(images: map<string, Image>, ws: seq<World>, steps: seq<Step>, u: string, t: nat)
    requires Clean(images) && Run(images, ws, steps) && OneUrl(ws[0], u) && t < |ws|
    ensures SentinelTrue(images, ws[t])
  {
    RunAlone(images, ws, steps, u, t);
    SentinelFollows(images, ws[t]);
  }

  /** The state right after a successful extraction. */
  lemma RenameSettles(images: map<string, Image>, w: World, w': World, i: nat)
    requires Clean(images) && Inv(images, w) && i < |w.procs| && Acts(images, w, w', i, Rename)
    ensures Settled(w') && Trim(w'.files[INIT_PATH].content) == w.procs[i].url
  {
    assert Progress(images, w.files, w.procs[i]);
    LineRoundTrip(w.procs[i].url);
    OneLockStays(images, w, w', i, Rename);
    assert Holds(w'.procs[i]);
  }

  lemma RenameAt(images: map<string, Image>, ws: seq<World>, steps: seq<Step>, u: string, s: nat)
    requires Clean(images) && Run(images, ws, steps) && OneUrl(ws[0], u)
    requires s < |steps| && steps[s].act == Rename
    ensures Settled(ws[s + 1]) && Trim(ws[s + 1].files[INIT_PATH].content) == u
  {
    assert StepAt(images, ws, steps, s);
    RunAlone(images, ws, steps, u, s);
    UrlStays(images, ws, steps, u, s);
    RenameSettles(images, ws[s], ws[s + 1], steps[s].proc);
  }

  lemma SettledAt(images: map<string, Image>, ws: seq<World>, steps: seq<Step>, u: string, t: nat)
    requires Clean(images) && Run(images, ws, steps) && OneUrl(ws[0], u) && t < |steps|
    requires Settled(ws[t]) && Trim(ws[t].files[INIT_PATH].content) == u
    ensures Settled(ws[t + 1]) && ws[t + 1].files == ws[t].files && steps[t].act != Rename
  {
    assert StepAt(images, ws, steps, t);
    UrlStays(images, ws, steps, u, t);
    SettledStays(images, ws[t], ws[t + 1], steps[t].proc, steps[t].act, u);
  }

  lemma {:induction false} NothingAfter(images: map<string, Image>, ws: seq<World>, steps: seq<Step>, u: string, s: nat, t: nat)
    requires Clean(images) && Run(images, ws, steps) && OneUrl(ws[0], u)
    requires s < t < |ws| && steps[s].act == Rename
    ensures Settled(ws[t]) && Trim(ws[t].files[INIT_PATH].content) == u
    decreases t
  {
    if s + 1 == t {
      RenameAt(images, ws, steps, u, s);
    } else {
      NothingAfter(images, ws, steps, u, s, t - 1);
      SettledAt(images, ws, steps, u, t - 1);
    }
  }

  /** Extract once: with one URL throughout, at most one extraction succeeds, and no later step of any process writes. */
  lemma ExtractOnce(images: map<string, Image>, ws: seq<World>, steps: seq<Step>, u: string, s: nat, t: nat)
    requires Clean(images) && Run(images, ws, steps) && OneUrl(ws[0], u)
    requires s < t < |steps| && steps[s].act == Rename
    ensures steps[t].act != Rename && ws[t + 1].files == ws[t].files
  {
    NothingAfter(images, ws, steps, u, s, t);
    SettledAt(images, ws, steps, u, t);
  }
}
