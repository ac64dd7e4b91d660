/** The preflight checks: a cache's summary label, and its manifest entries, against the GPUs at hand. */
module Preflight {
  import opened ApiTypes
  import opened Decimal
  import opened Devices
  import opened TargetSummary

  // ---------- The summary label ----------

  datatype LabelText = NoLabel | Garbled | Parsed(targets: seq<Target>)

  /** The two labels that may hold a summary. */
  datatype ImageLabels = ImageLabels(triton: LabelText, vllm: LabelText)

  /** The configuration of the image, which is read only when no labels are passed; reading it can fail. */
  datatype ImageConfig = Unreadable | Readable(labels: Option<ImageLabels>)

  datatype LabelResult =
    | Checked(matched: seq<TritonInfo>, unmatched: seq<TritonInfo>, compatible: bool)
    | NoConfig
    | NoLabels
    | MissingLabel
    | BadLabel

  ghost function Fitting(targets: seq<Target>, gpus: seq<TritonInfo>, fits: bool): seq<TritonInfo> {
    if gpus == [] then []
    else
      var last := gpus[|gpus| - 1];
      Fitting(targets, gpus[..|gpus| - 1], fits) + (if SomeTargetFits(targets, last) == fits then [last] else [])
  }

  /** The GPUs sorted by whether a target fits them, in the order given, and the verdict. */
  ghost predicate Sorts(r: LabelResult, targets: seq<Target>, gpus: seq<TritonInfo>) {
    && r.Checked? && r.matched == Fitting(targets, gpus, true) && r.unmatched == Fitting(targets, gpus, false)
    && (r.compatible <==> exists g :: 0 <= g < |gpus| && SomeTargetFits(targets, gpus[g]))
  }

  lemma FittingOne(targets: seq<Target>, gpu: TritonInfo, fits: bool)
    ensures Fitting(targets, [gpu], fits) == if SomeTargetFits(targets, gpu) == fits then [gpu] else []
  {
    assert [gpu][..0] == [];
  }

  /** GPUs are sorted one by one, and keep their order. */
  lemma {:induction false} FittingSplits(targets: seq<Target>, a: seq<TritonInfo>, b: seq<TritonInfo>, fits: bool)
    ensures Fitting(targets, a + b, fits) == Fitting(targets, a, fits) + Fitting(targets, b, fits)
  {
    if b == [] {
      assert a + b == a;
    } else {
      var init := b[..|b| - 1];
      FittingSplits(targets, a, init, fits);
      assert (a + b)[..|a + b| - 1] == a + init && (a + b)[|a + b| - 1] == b[|b| - 1];
    }
  }

  method TargetFits(targets: seq<Target>, gpu: TritonInfo) returns (isMatch: bool)
    ensures isMatch == SomeTargetFits(targets, gpu)
  {
    isMatch := false;
    for k := 0 to |targets|
      invariant forall i :: 0 <= i < k ==> !Fits(targets[i], gpu)
    {
      if Fits(targets[k], gpu) {
        return true;
      }
    }
  }

  /** Sort the GPUs by whether a target fits them. */
  method SortGpus(targets: seq<Target>, gpus: seq<TritonInfo>) returns (r: LabelResult)
    ensures Sorts(r, targets, gpus)
  {
    var matched, unmatched := [], [];
    for g := 0 to |gpus|
      invariant matched == Fitting(targets, gpus[..g], true) && unmatched == Fitting(targets, gpus[..g], false)
      invariant matched != [] <==> exists h :: 0 <= h < g && SomeTargetFits(targets, gpus[h])
    {
      assert gpus[..g + 1][..g] == gpus[..g];
      var isMatch := TargetFits(targets, gpus[g]);
      if isMatch {
        matched := matched + [gpus[g]];
      } else {
        unmatched := unmatched + [gpus[g]];
      }
    }
    assert gpus[..|gpus|] == gpus;
    r := Checked(matched, unmatched, matched != []);
  }

  method CompareCacheSummaryLabelToGPU(passed: Option<ImageLabels>, config: ImageConfig, gpus: seq<TritonInfo>)
    returns (r: LabelResult)
    ensures r == NoConfig <==> passed.None? && config.Unreadable?
    ensures r == NoLabels <==> passed.None? && config == Readable(None)
    ensures forall labels :: passed == Some(labels) || (passed.None? && config == Readable(Some(labels))) ==>
              && (r == MissingLabel <==> labels.triton == NoLabel && labels.vllm == NoLabel)
              && (r == BadLabel <==> labels.triton == Garbled || (labels.triton == NoLabel && labels.vllm == Garbled))
              && (labels.triton.Parsed? ==> Sorts(r, labels.triton.targets, gpus))
              && (labels.triton == NoLabel && labels.vllm.Parsed? ==> Sorts(r, labels.vllm.targets, gpus))
  {
    var labels := passed;
    if labels == None {
      if config.Unreadable? {
        return NoConfig;
      }
      labels := config.labels;
      if labels == None {
        return NoLabels;
      }
    }
    var found := if labels.value.triton != NoLabel then labels.value.triton else labels.value.vllm;
    if found == NoLabel {
      return MissingLabel;
    }
    if found == Garbled {
      return BadLabel;
    }
    r := SortGpus(found.targets, gpus);
  }

  /** Every GPU is reported exactly once, as matched or as unmatched. */
  lemma {:induction false} FittingPartitions(targets: seq<Target>, gpus: seq<TritonInfo>)
    ensures multiset(Fitting(targets, gpus, true)) + multiset(Fitting(targets, gpus, false)) == multiset(gpus)
    ensures forall gpu :: gpu in Fitting(targets, gpus, true) ==> SomeTargetFits(targets, gpu)
    ensures forall gpu :: gpu in Fitting(targets, gpus, false) ==> !SomeTargetFits(targets, gpu)
  {
    if gpus != [] {
      var init, last := gpus[..|gpus| - 1], gpus[|gpus| - 1];
      FittingPartitions(targets, init);
      assert gpus == init + [last];
    }
  }

  // ---------- The manifest ----------

  datatype ManifestResult = Compatible | NoEntries | NoDevices | KeyError | BackendMismatch | NoGpu

  /** On bare metal the recorded dummy key has to be the one computed from the entry; computing it can fail. */
  datatype DummyKeys = Unchecked | Expected(keys: seq<Option<string>>)

  predicate KeyMatches(e: Entry, keys: DummyKeys, i: nat)
    requires keys.Expected? ==> i < |keys.keys|
  {
    keys.Unchecked? || keys.keys[i] == Some(e.dummyKey)
  }

  predicate EntryFits(e: Entry, gpu: TritonInfo) {
    Fits(TargetOf(e), gpu) && (e.backend == "cuda" ==> e.ptx == gpu.ptxVersion)
  }

  /** The entry fits the GPU in backend, architecture, warp size and, for CUDA, PTX version, and its dummy key is right. */
  ghost predicate FitsAt(entries: seq<Entry>, keys: DummyKeys, gpus: seq<TritonInfo>, i: nat, g: nat)
    requires keys.Expected? ==> |keys.keys| == |entries|
  {
    && i < |entries| && g < |gpus|
    && entries[i].backend == gpus[g].backend && entries[i].warp == gpus[g].warpSize
    && NormalizeArch(entries[i].backend, ConvertArchToString(entries[i].arch)) == NormalizeArch(gpus[g].backend, gpus[g].arch)
    && (entries[i].backend == "cuda" ==> entries[i].ptx == gpus[g].ptxVersion)
    && (keys.Expected? ==> keys.keys[i] == Some(entries[i].dummyKey))
  }

  ghost predicate SomeFit(entries: seq<Entry>, keys: DummyKeys, gpus: seq<TritonInfo>)
    requires keys.Expected? ==> |keys.keys| == |entries|
  {
    exists i: nat, g: nat :: FitsAt(entries, keys, gpus, i, g)
  }

  ghost predicate KeysComputed(keys: DummyKeys) {
    keys.Expected? ==> forall i :: 0 <= i < |keys.keys| ==> keys.keys[i].Some?
  }

  ghost predicate BackendsDiffer(entries: seq<Entry>, gpus: seq<TritonInfo>) {
    exists i, g :: 0 <= i < |entries| && 0 <= g < |gpus| && entries[i].backend != gpus[g].backend
  }

  /** One entry against all GPUs; the search stops at the first that fits. */
  method CompareEntry(e: Entry, keyMatches: bool, gpus: seq<TritonInfo>) returns (hasMatch: bool, mismatch: bool)
    ensures hasMatch <==> keyMatches && exists g :: 0 <= g < |gpus| && EntryFits(e, gpus[g])
    ensures !hasMatch ==> (mismatch <==> exists g :: 0 <= g < |gpus| && e.backend != gpus[g].backend)
  {
    hasMatch, mismatch := false, false;
    for g := 0 to |gpus|
      invariant !(keyMatches && exists h :: 0 <= h < g && EntryFits(e, gpus[h]))
      invariant mismatch <==> exists h :: 0 <= h < g && e.backend != gpus[h].backend
    {
      if EntryFits(e, gpus[g]) && keyMatches {
        return true, mismatch;
      }
      if e.backend != gpus[g].backend {
        mismatch := true;
      }
    }
  }

  ghost predicate EntryMatches(entries: seq<Entry>, keys: DummyKeys, gpus: seq<TritonInfo>, i: nat)
    requires keys.Expected? ==> |keys.keys| == |entries|
  {
    exists g: nat :: FitsAt(entries, keys, gpus, i, g)
  }

  ghost predicate EntryDiffers(entries: seq<Entry>, gpus: seq<TritonInfo>, i: nat) {
    i < |entries| && exists g :: 0 <= g < |gpus| && entries[i].backend != gpus[g].backend
  }

  /** The outcome of the search over the first `count` entries. */
  ghost predicate Searched(entries: seq<Entry>, keys: DummyKeys, gpus: seq<TritonInfo>, count: nat, hasMatch: bool, mismatch: bool)
    requires keys.Expected? ==> |keys.keys| == |entries|
    requires count <= |entries|
  {
    && (keys.Expected? ==> forall j :: 0 <= j < count ==> keys.keys[j].Some?)
    && (hasMatch <==> exists j: nat :: j < count && EntryMatches(entries, keys, gpus, j))
    && (!hasMatch ==> (mismatch <==> exists j: nat :: j < count && EntryDiffers(entries, gpus, j)))
  }

  method CompareNext(entries: seq<Entry>, keys: DummyKeys, gpus: seq<TritonInfo>, i: nat, before: bool, differed: bool)
    returns (hasMatch: bool, mismatch: bool)
    requires keys.Expected? ==> |keys.keys| == |entries|
    requires i < |entries| && Searched(entries, keys, gpus, i, before, differed) && (keys.Expected? ==> keys.keys[i].Some?)
    ensures Searched(entries, keys, gpus, i + 1, hasMatch, mismatch)
  {
    var fits, differs := CompareEntry(entries[i], KeyMatches(entries[i], keys, i), gpus);
    if fits {
      var g: nat :| g < |gpus| && EntryFits(entries[i], gpus[g]);
      assert FitsAt(entries, keys, gpus, i, g);
    }
    assert EntryMatches(entries, keys, gpus, i) <==> fits;
    assert !fits ==> (EntryDiffers(entries, gpus, i) <==> differs);
    hasMatch, mismatch := before || fits, differed || differs;
  }

  method CompareTritonEntriesToGPU(entries: seq<Entry>, keys: DummyKeys, gpus: Option<seq<TritonInfo>>) returns (r: ManifestResult)
    requires keys.Expected? ==> |keys.keys| == |entries|
    ensures r == NoEntries <==> entries == []
    ensures r == NoDevices <==> entries != [] && gpus.None?
    ensures r == KeyError <==> entries != [] && gpus.Some? && !KeysComputed(keys)
    ensures r == Compatible <==> entries != [] && gpus.Some? && KeysComputed(keys) && SomeFit(entries, keys, gpus.value)
    ensures r == BackendMismatch <==>
              entries != [] && gpus.Some? && KeysComputed(keys) && !SomeFit(entries, keys, gpus.value) && BackendsDiffer(entries, gpus.value)
  {
    if entries == [] {
      return NoEntries;
    }
    if gpus == None {
      return NoDevices;
    }
    var hasMatch, backendMismatch := false, false;
    for i := 0 to |entries|
      invariant Searched(entries, keys, gpus.value, i, hasMatch, backendMismatch)
    {
      if keys.Expected? && keys.keys[i] == None {
        return KeyError;
      }
      hasMatch, backendMismatch := CompareNext(entries, keys, gpus.value, i, hasMatch, backendMismatch);
    }
    SearchedAll(entries, keys, gpus.value, hasMatch, backendMismatch);
    r := if hasMatch then Compatible else if backendMismatch then BackendMismatch else NoGpu;
  }

  lemma SearchedAll(entries: seq<Entry>, keys: DummyKeys, gpus: seq<TritonInfo>, hasMatch: bool, mismatch: bool)
    requires keys.Expected? ==> |keys.keys| == |entries|
    requires Searched(entries, keys, gpus, |entries|, hasMatch, mismatch)
    ensures hasMatch <==> SomeFit(entries, keys, gpus)
    ensures !hasMatch ==> (mismatch <==> BackendsDiffer(entries, gpus))
    ensures KeysComputed(keys)
  {
    if SomeFit(entries, keys, gpus) {
      var i: nat, g: nat :| FitsAt(entries, keys, gpus, i, g);
      assert EntryMatches(entries, keys, gpus, i);
    }
    if BackendsDiffer(entries, gpus) {
      var i: nat, g: nat :| i < |entries| && g < |gpus| && entries[i].backend != gpus[g].backend;
      assert EntryDiffers(entries, gpus, i);
    }
  }

  // ---------- One check implies the other ----------

  /**
   * If the manifest is compatible with the GPUs, the summary built from the same entries fits one of them, so the check of
   * the label cannot turn the cache away.
   */
  lemma ManifestImpliesSummary(entries: seq<Entry>, keys: DummyKeys, gpus: seq<TritonInfo>, targets: seq<Target>)
    requires keys.Expected? ==> |keys.keys| == |entries|
    requires Summarizes(targets, entries) && forall i :: 0 <= i < |entries| ==> Plain(entries[i])
    requires SomeFit(entries, keys, gpus)
    ensures exists g :: 0 <= g < |gpus| && SomeTargetFits(targets, gpus[g])
  {
    var i: nat, g: nat :| FitsAt(entries, keys, gpus, i, g);
    assert SomeEntryFits(entries, gpus[g]);
    SummaryIsLossless(targets, entries);
  }

  // ---------- The hypotheses are needed ----------

  const A_GPU := TritonInfo("", "", "", "b", 1, 0, 0, "a", 0)

  /** Two entries with one key, of which a summary keeps only the first. */
  ghost predicate Loses(first: Entry, second: Entry, gpu: TritonInfo) {
    && Summarizes([TargetOf(first)], [first, second])
    && SomeEntryFits([first, second], gpu) && !SomeTargetFits([TargetOf(first)], gpu)
  }

  lemma LosesIfKeysClash(first: Entry, second: Entry, gpu: TritonInfo)
    requires DedupKey(first) == DedupKey(second) && Fits(TargetOf(second), gpu) && !Fits(TargetOf(first), gpu)
    ensures Loses(first, second, gpu)
  {
    var metadata := [first, second];
    assert metadata[0] == first && metadata[1] == second && First(metadata, 0) && !First(metadata, 1);
    assert Kept(metadata, TargetOf(first));
    assert Fits(TargetOf(metadata[1]), gpu);
  }

  /** A backend with a dash can share its key with another backend and architecture. */
  lemma DashInBackendLoses()
    ensures Loses(Entry("a", Text("b-c"), 1, 0, ""), Entry("a-b", Text("c"), 1, 0, ""),
                  A_GPU.(backend := "a-b", arch := "c"))
  {
    var first, second := Entry("a", Text("b-c"), 1, 0, ""), Entry("a-b", Text("c"), 1, 0, "");
    assert DedupKey(first) == "a-b-c-1" == DedupKey(second);
    LosesIfKeysClash(first, second, A_GPU.(backend := "a-b", arch := "c"));
  }

  /** A negative warp size moves its sign into the architecture. */
  lemma NegativeWarpLoses()
    ensures Loses(Entry("a", Text("b-"), 1, 0, ""), Entry("a", Text("b"), -1, 0, ""), A_GPU.(warpSize := -1))
  {
    var first, second := Entry("a", Text("b-"), 1, 0, ""), Entry("a", Text("b"), -1, 0, "");
    assert Itoa(1) == "1" && Itoa(-1) == "-1";
    assert DedupKey(first) == "a-b--1" == DedupKey(second);
    LosesIfKeysClash(first, second, A_GPU.(warpSize := -1));
  }

  /** An architecture text that looks like a printed number shares its key with that number. */
  lemma PrintedNumberLoses()
    ensures Loses(Entry("a", Text("%!s(float64=7)"), 1, 0, ""), Entry("a", Float(7), 1, 0, ""), A_GPU.(arch := "7"))
  {
    var first, second := Entry("a", Text("%!s(float64=7)"), 1, 0, ""), Entry("a", Float(7), 1, 0, "");
    assert Itoa(7) == "7";
    assert PrintedArch(Float(7)) == "%!s(float64=7)";
    LosesIfKeysClash(first, second, A_GPU.(arch := "7"));
  }

  /** So does an architecture text that looks like a printed integer. */
  lemma PrintedIntegerLoses()
    ensures Loses(Entry("a", Text("%!s(int=7)"), 1, 0, ""), Entry("a", Int(7), 1, 0, ""), A_GPU.(arch := "7"))
  {
    var first, second := Entry("a", Text("%!s(int=7)"), 1, 0, ""), Entry("a", Int(7), 1, 0, "");
    assert Itoa(7) == "7";
    assert PrintedArch(Int(7)) == "%!s(int=7)";
    LosesIfKeysClash(first, second, A_GPU.(arch := "7"));
  }
}
