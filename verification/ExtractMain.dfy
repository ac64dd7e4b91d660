/**
 * One extractor, uninterrupted: the directory is changed step by step, and every step is one of the extract protocol, so what
 * is proved of the protocol holds in every state the program goes through.
 */
module ExtractMain {
  import opened ApiTypes
  import opened Names
  import opened Extract
  import ExtractProofs

  /** The entries whose top-level name is in `tops` are gone, the others untouched. */
  ghost predicate Without(before: map<Path, File>, files: map<Path, File>, tops: set<string>) {
    && (forall p :: p in files <==> p in before && p.top !in tops)
    && (forall p :: p in files ==> files[p] == before[p])
  }

  /** The files in `done` hold what the image says, the others are untouched; no file changes its inode. */
  ghost predicate Filled(before: map<Path, File>, files: map<Path, File>, image: Image, done: set<Path>)
    requires done <= image.Keys
  {
    && files.Keys == before.Keys + done
    && (forall p :: p in done ==> files[p].content == image[p])
    && (forall p :: p in before && p !in done ==> files[p] == before[p])
    && (forall p :: p in before && p in done ==> files[p].inode == before[p].inode)
  }

  /** The names a clearing removes when it comes to them. */
  ghost function Doomed(names: seq<string>): set<string> {
    (set n | n in names) - {LOCK, TMP}
  }

  lemma DoomedNext(names: seq<string>, k: nat)
    requires k < |names|
    ensures Doomed(names[..k + 1]) == Doomed(names[..k]) + if Kept(names[k]) then {} else {names[k]}
    ensures names[k..] == [names[k]] + names[k + 1..]
  {
    assert names[..k + 1] == names[..k] + [names[k]];
  }

  lemma DoomedAll(names: seq<string>, tops: set<string>)
    requires Listing(names, tops)
    ensures Doomed(names[..|names|]) == tops - {LOCK, TMP} && names[|names|..] == []
  {
    assert names[..|names|] == names;
  }

  /** The files a clearing leaves: those of the lock and of the temporary file. */
  ghost function Spared(files: map<Path, File>): set<Path> {
    set p | p in files && (p.top == LOCK || p.top == TMP)
  }

  lemma SparedAreLeft(before: map<Path, File>, files: map<Path, File>)
    requires Without(before, files, Tops(before) - {LOCK, TMP})
    ensures files.Keys == Spared(before)
  {
    forall p ensures p in files <==> p in Spared(before) {
      assert p in before ==> p.top in Tops(before);
    }
  }

  /** What an extraction starts from: everything, or only what is spared if a sentinel named another URL. */
  ghost function Base(files: map<Path, File>): set<Path> {
    if INIT_PATH in files then Spared(files) else files.Keys
  }

  function Elements(order: seq<Path>): set<Path> {
    set p | p in order
  }

  // ---------- Steps of the protocol ----------

  /** One step of the only process there is. */
  ghost predicate StepsAlone(images: map<string, Image>, w: World, w': World, act: Act) {
    |w.procs| == 1 && |w'.procs| == 1 && w.procs[0].url in images && Acts(images, w, w', 0, act)
  }

  ghost predicate StepTaken(images: map<string, Image>, past: seq<World>, acts: seq<Act>, t: nat) {
    t < |acts| && t + 1 < |past| && StepsAlone(images, past[t], past[t + 1], acts[t])
  }

  /** The states follow each other by steps of the protocol. */
  ghost predicate Traced(images: map<string, Image>, past: seq<World>, acts: seq<Act>) {
    |past| == |acts| + 1 && forall t: nat :: t < |acts| ==> StepTaken(images, past, acts, t)
  }

  lemma TraceGrows(images: map<string, Image>, past: seq<World>, acts: seq<Act>, w: World, act: Act)
    requires Traced(images, past, acts) && StepsAlone(images, past[|acts|], w, act)
    ensures Traced(images, past + [w], acts + [act])
  {
    forall t: nat | t < |acts + [act]| ensures StepTaken(images, past + [w], acts + [act], t) {
      if t < |acts| {
        assert StepTaken(images, past, acts, t);
      }
    }
  }

  lemma FilledOn(before: map<Path, File>, files: map<Path, File>, files': map<Path, File>, image: Image, done: set<Path>, p: Path)
    requires done <= image.Keys && p in image
    requires Filled(before, files, image, done) && Wrote(files, files', p, image[p])
    ensures Filled(before, files', image, done + {p})
  {
  }

  class Directory {
    var files: map<Path, File>
    var inodes: nat // inodes below this one have been handed out
    ghost const images: map<string, Image> // what extracting each URL brings
    ghost var proc: Proc
    ghost var past: seq<World> // the states so far, the present one last
    ghost var acts: seq<Act>

    /** The directory of a process that has not started yet. */
    constructor (files: map<Path, File>, inodes: nat, ghost images: map<string, Image>, ghost url: string)
      requires url in images && forall p :: p in files ==> files[p].inode < inodes
      ensures Valid() && this.files == files && this.images == images && proc == Proc(url, Start, None)
      ensures past == [World(files, [proc])]
    {
      this.files, this.inodes, this.images := files, inodes, images;
      proc, acts := Proc(url, Start, None), [];
      past := [World(files, [Proc(url, Start, None)])];
    }

    ghost predicate Valid()
      reads this
    {
      && (forall p :: p in files ==> files[p].inode < inodes)
      && proc.url in images && Traced(images, past, acts) && past[|acts|] == World(files, [proc])
    }

    /** Everything the process went through stays recorded. */
    twostate predicate GoesOn()
      reads this
    {
      old(past) <= past && old(acts) <= acts && proc.url == old(proc.url)
    }

    /** The files have been changed by one step of the protocol, which takes the process on. */
    ghost method Record(before: map<Path, File>, act: Act, next: Proc)
      requires (forall p :: p in files ==> files[p].inode < inodes)
      requires proc.url in images && next.url == proc.url && Traced(images, past, acts)
      requires past[|acts|] == World(before, [proc])
      requires StepsAlone(images, World(before, [proc]), World(files, [next]), act)
      modifies this`proc, this`past, this`acts
      ensures Valid() && GoesOn() && proc == next
    {
      TraceGrows(images, past, acts, World(files, [next]), act);
      past, acts, proc := past + [World(files, [next])], acts + [act], next;
    }

    /** The entries in the order the file system lists them. */
    method ReadDir() returns (names: seq<string>)
      ensures Listing(names, Tops(files))
    {
      names := Sort(set p | p in files :: p.top);
    }

    // ---------- Steps that change no file ----------

    /** The sentinel names another URL, and the directory has been listed. */
    ghost method Listed(names: seq<string>)
      requires Valid() && proc.pc == Locked && INIT_PATH in files && Trim(files[INIT_PATH].content) != proc.url
      requires Listing(names, Tops(files))
      modifies this`proc, this`past, this`acts
      ensures Valid() && GoesOn() && proc.pc == Clearing(names)
    {
      Record(files, Stale(names), proc.(pc := Clearing(names)));
    }

    ghost method Skipped(name: string, rest: seq<string>)
      requires Valid() && proc.pc == Clearing([name] + rest) && Kept(name)
      modifies this`proc, this`past, this`acts
      ensures Valid() && GoesOn() && proc.pc == Clearing(rest)
    {
      assert ([name] + rest)[1..] == rest;
      Record(files, Skip, proc.(pc := Clearing(rest)));
    }

    ghost method AllCleared()
      requires Valid() && proc.pc == Clearing([])
      modifies this`proc, this`past, this`acts
      ensures Valid() && GoesOn() && proc.pc == Writing
    {
      Record(files, Cleared, proc.(pc := Writing));
    }

    /** The sentinel names the URL, or there is none. */
    ghost method Looked()
      requires Valid() && proc.pc == Locked && (INIT_PATH in files ==> Trim(files[INIT_PATH].content) == proc.url)
      modifies this`proc, this`past, this`acts
      ensures Valid() && GoesOn() && proc.pc == if INIT_PATH in files then Returning else Writing
    {
      if INIT_PATH in files {
        Record(files, Found, proc.(pc := Returning));
      } else {
        Record(files, Missing, proc.(pc := Writing));
      }
    }

    ghost method Closed()
      requires Valid() && (proc.pc == Returning || proc.pc == Sleeping)
      modifies this`proc, this`past, this`acts
      ensures Valid() && GoesOn() && proc == Proc(old(proc).url, Gone, None)
    {
      Record(files, Close, proc.(pc := Gone, fd := None));
    }

    // ---------- System calls ----------

    /** Create or truncate a file and write it. */
    method WriteFile(p: Path, content: string, ghost act: Act, ghost next: Proc)
      requires Valid() && next.url == proc.url
      requires forall after :: Wrote(files, after, p, content) ==> StepsAlone(images, World(files, [proc]), World(after, [next]), act)
      modifies this
      ensures Valid() && GoesOn() && proc == next && Wrote(old(files), files, p, content)
    {
      ghost var before := files;
      if p in files {
        files := files[p := File(files[p].inode, content)];
      } else {
        files := files[p := File(inodes, content)];
        inodes := inodes + 1;
      }
      assert Wrote(before, files, p, content);
      Record(before, act, next);
    }

    /** Open the lock file, creating it if it is not there, and wait for the lock. */
    method OpenAndLock()
      requires Valid() && proc.pc == Start
      modifies this
      ensures Valid() && GoesOn() && proc.pc == Locked && LOCK_PATH in files
      ensures if LOCK_PATH in old(files) then files == old(files) else Wrote(old(files), files, LOCK_PATH, "")
    {
      ghost var before := files;
      if LOCK_PATH !in files {
        files := files[LOCK_PATH := File(inodes, "")];
        inodes := inodes + 1;
      }
      Record(before, Open, proc.(pc := Opened, fd := Some(files[LOCK_PATH].inode)));
      Record(files, Flock, proc.(pc := Locked));
    }

    /** Remove one file of the entry at hand. */
    method RemoveOne(p: Path, ghost rest: seq<string>)
      requires Valid() && proc.pc == Clearing([p.top] + rest) && !Kept(p.top) && p in files
      modifies this
      ensures Valid() && GoesOn() && proc == old(proc) && files == old(files) - {p}
    {
      ghost var before := files;
      files := files - {p};
      Record(before, Act.RemoveOne(p), proc);
    }

    ghost method Emptied(name: string, rest: seq<string>)
      requires Valid() && proc.pc == Clearing([name] + rest) && name !in Tops(files)
      modifies this`proc, this`past, this`acts
      ensures Valid() && GoesOn() && proc.pc == Clearing(rest)
    {
      assert ([name] + rest)[1..] == rest;
      Record(files, NextEntry, proc.(pc := Clearing(rest)));
    }

    /** Remove whatever has this name, file by file. */
    method RemoveAll(name: string, ghost rest: seq<string>)
      requires Valid() && proc.pc == Clearing([name] + rest) && !Kept(name)
      modifies this
      ensures Valid() && GoesOn() && proc.pc == Clearing(rest) && Without(old(files), files, {name})
    {
      var doomed := set p | p in files && p.top == name;
      while doomed != {}
        invariant Valid() && GoesOn() && proc.pc == Clearing([name] + rest)
        invariant forall p :: p in files <==> p in old(files) && (p.top == name ==> p in doomed)
        invariant forall p :: p in files ==> files[p] == old(files)[p]
        invariant forall p :: p in doomed ==> p.top == name && p in old(files)
        decreases |doomed|
      {
        var p :| p in doomed;
        RemoveOne(p, rest);
        doomed := doomed - {p};
      }
      assert name !in Tops(files);
      Emptied(name, rest);
    }

    /** Give up: remove the temporary file and release the lock. */
    method GiveUp()
      requires Valid() && proc.pc.Extracting?
      modifies this
      ensures Valid() && GoesOn() && proc.pc == Sleeping && files == old(files) - {TMP_PATH}
    {
      Record(files, Fail, proc.(pc := Failing));
      ghost var before := files;
      files := files - {TMP_PATH};
      Record(before, RemoveTmp, proc.(pc := Unlocking));
      Record(files, Unlock, proc.(pc := Sleeping));
    }

    /** Write the URL into the temporary file. */
    method BeginFill(url: string, ghost image: Image)
      requires Valid() && proc.pc == Writing && proc.url == url && image == images[url]
      modifies this
      ensures Valid() && GoesOn() && proc.pc == Extracting(image.Keys) && Wrote(old(files), files, TMP_PATH, url + "\n")
    {
      WriteFile(TMP_PATH, url + "\n", WriteTmp, proc.(pc := Extracting(image.Keys)));
    }

    method Promote()
      requires Valid() && proc.pc == Extracting({}) && TMP_PATH in files
      modifies this
      ensures Valid() && GoesOn() && proc.pc == Returning && files == old(files)[INIT_PATH := old(files)[TMP_PATH]] - {TMP_PATH}
    {
      ghost var before := files;
      files := files[INIT_PATH := files[TMP_PATH]] - {TMP_PATH};
      Record(before, Rename, proc.(pc := Returning));
    }

    // ---------- Clearing ----------

    /** Remove the next entry of the listing, unless it is spared. */
    method ClearNext(name: string, ghost rest: seq<string>, ghost before: map<Path, File>, ghost removed: set<string>)
      requires Valid() && proc.pc == Clearing([name] + rest) && Without(before, files, removed)
      modifies this
      ensures Valid() && GoesOn() && proc.pc == Clearing(rest)
      ensures Without(before, files, removed + if Kept(name) then {} else {name})
    {
      if name != LOCK && name != TMP {
        RemoveAll(name, rest);
      } else {
        Skipped(name, rest);
        assert removed + {} == removed;
      }
    }

    /** Remove every entry but the lock file and the temporary file. */
    method ClearDirectory()
      requires Valid() && proc.pc == Locked && INIT_PATH in files && Trim(files[INIT_PATH].content) != proc.url
      modifies this
      ensures Valid() && GoesOn() && proc.pc == Writing && Without(old(files), files, Tops(old(files)) - {LOCK, TMP})
    {
      var names := ReadDir();
      ghost var tops := Tops(files);
      Listed(names);
      assert Doomed(names[..0]) == {};
      for k := 0 to |names|
        invariant Valid() && GoesOn() && proc.pc == Clearing(names[k..]) && Without(old(files), files, Doomed(names[..k]))
      {
        DoomedNext(names, k);
        ClearNext(names[k], names[k + 1..], old(files), Doomed(names[..k]));
      }
      DoomedAll(names, tops);
      AllCleared();
    }

    // ---------- Extracting ----------

    /** Write one more file of the image. */
    method WriteNext(image: Image, p: Path, ghost before: map<Path, File>, ghost done: set<Path>, ghost left: set<Path>)
      requires Valid() && image == images[proc.url] && proc.pc == Extracting(left)
      requires done <= image.Keys && p in image && Filled(before, files, image, done)
      modifies this
      ensures Valid() && GoesOn() && proc.pc == Extracting(left - {p}) && Filled(before, files, image, done + {p})
    {
      ghost var filled := files;
      WriteFile(p, image[p], Act.WriteFile(p), proc.(pc := Extracting(left - {p})));
      FilledOn(before, filled, files, image, done, p);
    }

    /** What the extraction library writes, in the order it comes to the files. */
    method WriteImage(image: Image, order: seq<Path>)
      requires Valid() && image == images[proc.url] && proc.pc == Extracting(image.Keys) && Elements(order) <= image.Keys
      modifies this
      ensures Valid() && GoesOn() && proc.pc == Extracting(image.Keys - Elements(order))
      ensures Filled(old(files), files, image, Elements(order))
    {
      ghost var done: set<Path> := {};
      for k := 0 to |order|
        invariant done == Elements(order[..k]) && done <= image.Keys
        invariant Valid() && GoesOn() && proc.pc == Extracting(image.Keys - done) && Filled(old(files), files, image, done)
      {
        assert order[k] in Elements(order);
        WriteNext(image, order[k], old(files), done, image.Keys - done);
        assert order[..k + 1] == order[..k] + [order[k]];
        assert image.Keys - done - {order[k]} == image.Keys - (done + {order[k]});
        done := done + {order[k]};
      }
      assert order[..|order|] == order;
    }

    /** Look at the sentinel; one that names another URL has the directory cleared. */
    method CheckSentinel(url: string) returns (present: bool)
      requires Valid() && proc.pc == Locked && proc.url == url
      modifies this
      ensures Valid() && GoesOn() && proc.pc == if present then Returning else Writing
      ensures present == (INIT_PATH in old(files) && Trim(old(files)[INIT_PATH].content) == url)
      ensures if present || INIT_PATH !in old(files) then files == old(files)
              else Without(old(files), files, Tops(old(files)) - {LOCK, TMP})
    {
      present := false;
      if INIT_PATH in files {
        present := Trim(files[INIT_PATH].content) == url;
        if !present {
          ClearDirectory();
        } else {
          Looked();
        }
      } else {
        Looked();
      }
    }

    /** Take the lock and look at the sentinel. */
    method Prepare(url: string) returns (present: bool)
      requires Valid() && proc.pc == Start && proc.url == url
      modifies this
      ensures Valid() && GoesOn() && proc.pc == if present then Returning else Writing
      ensures LOCK_PATH in files && (LOCK_PATH in old(files) ==> files[LOCK_PATH] == old(files)[LOCK_PATH])
      ensures present == (INIT_PATH in old(files) && Trim(old(files)[INIT_PATH].content) == url)
      ensures present ==> files == if LOCK_PATH in old(files) then old(files) else old(files)[LOCK_PATH := files[LOCK_PATH]]
      ensures !present ==> files.Keys == Base(old(files)) + {LOCK_PATH} && INIT_PATH !in files
      ensures forall p :: p in files && p != LOCK_PATH ==> files[p] == old(files)[p]
    {
      OpenAndLock();
      ghost var locked := files;
      present := CheckSentinel(url);
      if !present && INIT_PATH in locked {
        SparedAreLeft(locked, files);
      }
    }

    /** Write the image under the temporary name and promote it only when all of it is there. */
    method Fill(url: string, image: Image, failed: bool, order: seq<Path>)
      requires Valid() && proc.pc == Writing && proc.url == url && image == images[url] && INIT_PATH !in files
      requires forall p :: p in image ==> p.top != LOCK && p.top != INIT && p.top != TMP
      requires Elements(order) <= image.Keys && (!failed ==> Elements(order) == image.Keys)
      modifies this
      ensures Valid() && GoesOn() && proc.pc == (if failed then Sleeping else Returning) && TMP_PATH !in files
      ensures LOCK_PATH in old(files) ==> LOCK_PATH in files && files[LOCK_PATH] == old(files)[LOCK_PATH]
      ensures if failed then INIT_PATH !in files
              else INIT_PATH in files && files[INIT_PATH].content == url + "\n" && Complete(files, image)
      ensures files.Keys == old(files).Keys + Elements(order) + (if failed then {} else {INIT_PATH}) - {TMP_PATH}
      ensures forall p :: p in files && p !in Elements(order) && p != INIT_PATH ==> files[p] == old(files)[p]
    {
      BeginFill(url, image);
      WriteImage(image, order);
      if failed {
        GiveUp();
      } else {
        assert image.Keys - Elements(order) == {};
        Promote();
      }
    }

    /**
     * A whole extraction. A sentinel that names the URL means there is nothing to do. Otherwise the directory is cleared,
     * if a sentinel is there at all, and the new sentinel appears only after the last file of the image. Every state on the
     * way is one the protocol allows, so a sentinel that was true stays true in each of them.
     */
    method ExtractCache(url: string, image: Image, failed: bool, order: seq<Path>) returns (ok: bool)
      requires Valid() && Clean(images) && proc == Proc(url, Start, None) && image == images[url]
      requires past == [World(files, [proc])]
      requires Elements(order) <= image.Keys && (!failed ==> Elements(order) == image.Keys)
      modifies this
      ensures Valid() && proc == Proc(url, Gone, None) && GoesOn()
      ensures AfterSentinel(images) && old(ExtractProofs.Inv(images, World(files, [proc]))) ==>
                forall t :: 0 <= t < |past| ==> SentinelTrue(images, past[t])
      ensures LOCK_PATH in files && (LOCK_PATH in old(files) ==> files[LOCK_PATH] == old(files)[LOCK_PATH])
      ensures var present := INIT_PATH in old(files) && Trim(old(files)[INIT_PATH].content) == url;
              && ok == (present || !failed)
              && (present ==> files == if LOCK_PATH in old(files) then old(files) else old(files)[LOCK_PATH := files[LOCK_PATH]])
              && (ok <==> INIT_PATH in files && Trim(files[INIT_PATH].content) == url)
              && (ok && !present ==> Complete(files, image) && TMP_PATH !in files)
              && (!ok ==> INIT_PATH !in files && TMP_PATH !in files)
              && (!present ==>
                    && files.Keys == Base(old(files)) + {LOCK_PATH} + Elements(order) + (if ok then {INIT_PATH} else {}) - {TMP_PATH}
                    && forall p :: p in files && p !in Elements(order) && p != INIT_PATH && p != LOCK_PATH ==>
                         files[p] == old(files)[p])
              && (ok && !present && INIT_PATH in old(files) ==>
                    forall p :: p in files ==> p == INIT_PATH || p in image || ((p.top == LOCK || p.top == TMP) && p != TMP_PATH))
    {
      ok := Prepare(url);
      if !ok {
        Fill(url, image, failed, order);
        LineRoundTrip(url);
        ok := !failed;
      }
      Closed();
      if AfterSentinel(images) && old(ExtractProofs.Inv(images, World(files, [proc]))) {
        TraceIsSafe(images, past, acts);
      }
    }
  }

  lemma StepKeeps(images: map<string, Image>, past: seq<World>, acts: seq<Act>, t: nat)
    requires Clean(images) && AfterSentinel(images) && StepTaken(images, past, acts, t) && ExtractProofs.Inv(images, past[t])
    ensures ExtractProofs.Inv(images, past[t + 1])
  {
    ExtractProofs.InvStays(images, past[t], past[t + 1], 0, acts[t]);
  }

  ghost predicate InvAt(images: map<string, Image>, past: seq<World>, t: nat) {
    t < |past| && ExtractProofs.Inv(images, past[t])
  }

  lemma {:induction false} TraceKeeps(images: map<string, Image>, past: seq<World>, t: nat)
    requires t < |past| && InvAt(images, past, 0)
    requires forall u: nat :: u < t && InvAt(images, past, u) ==> InvAt(images, past, u + 1)
    ensures InvAt(images, past, t)
  {
    if t > 0 {
      TraceKeeps(images, past, t - 1);
    }
  }

  /** Crash safety of the program: whenever it is stopped, a sentinel that is there is true. */
  lemma TraceIsSafe(images: map<string, Image>, past: seq<World>, acts: seq<Act>)
    requires Clean(images) && AfterSentinel(images) && Traced(images, past, acts) && ExtractProofs.Inv(images, past[0])
    ensures forall t :: 0 <= t < |past| ==> SentinelTrue(images, past[t])
  {
    forall t | 0 <= t < |past| ensures SentinelTrue(images, past[t]) {
      forall u: nat | u < t && InvAt(images, past, u) ensures InvAt(images, past, u + 1) {
        assert StepTaken(images, past, acts, u);
        StepKeeps(images, past, acts, u);
      }
      TraceKeeps(images, past, t);
      ExtractProofs.SentinelFollows(images, past[t]);
    }
  }
}
