/** The deduplicated summary label of a cache, and the two preflight checks that compare a cache with the GPUs at hand. */
module TargetSummary {
  import opened ApiTypes
  import opened Decimal
  import opened Devices
  import opened Splitting

  // ---------- Metadata and targets ----------

  /** Architectures come out of JSON as text or as numbers; numbers here have no fraction. */
  datatype Arch = Text(text: string) | Int(value: int) | Float(value: int)

  datatype Entry = Entry(backend: string, arch: Arch, warp: int, ptx: int, dummyKey: string)

  datatype Target = Target(backend: string, arch: string, warp: int)

  function ConvertArchToString(arch: Arch): string {
    match arch
    case Text(text) => text
    case Int(value) => Itoa(value)
    case Float(value) => Itoa(value)
  }

  /** What the string verb of the key prints: numbers come out as a complaint that names their type. */
  function PrintedArch(arch: Arch): string {
    match arch
    case Text(text) => text
    case Int(value) => "%!s(int=" + Itoa(value) + ")"
    case Float(value) => "%!s(float64=" + Itoa(value) + ")"
  }

  function DedupKey(e: Entry): string {
    e.backend + "-" + PrintedArch(e.arch) + "-" + Itoa(e.warp)
  }

  function TargetOf(e: Entry): Target {
    Target(e.backend, ConvertArchToString(e.arch), e.warp)
  }

  /** Entries whose key can be taken apart again. */
  predicate Plain(e: Entry) {
    '-' !in e.backend && e.warp >= 0 && (e.arch.Text? ==> !("%!s(" <= e.arch.text))
  }

  // ---------- The key is injective ----------

  lemma NumberPrint(prefix: string, m: int, n: int)
    requires prefix + Itoa(m) + ")" == prefix + Itoa(n) + ")"
    ensures m == n
  {
    var s, t := prefix + Itoa(m) + ")", prefix + Itoa(n) + ")";
    assert s[|prefix|..|s| - 1] == Itoa(m) && t[|prefix|..|t| - 1] == Itoa(n);
    PrintIsInjective(m, n);
  }

  lemma PrintStart(arch: Arch)
    ensures arch.Int? ==> "%!s(" <= PrintedArch(arch) && |PrintedArch(arch)| > 4 && PrintedArch(arch)[4] == 'i'
    ensures arch.Float? ==> "%!s(" <= PrintedArch(arch) && |PrintedArch(arch)| > 4 && PrintedArch(arch)[4] == 'f'
  {
    var s := PrintedArch(arch);
    assert arch.Int? ==> s[..4] == "%!s(";
    assert arch.Float? ==> s[..4] == "%!s(";
  }

  lemma PrintedArchInjective(a: Arch, b: Arch)
    requires PrintedArch(a) == PrintedArch(b)
    requires a.Text? ==> !("%!s(" <= a.text)
    requires b.Text? ==> !("%!s(" <= b.text)
    ensures a == b
  {
    PrintStart(a);
    PrintStart(b);
    match (a, b)
    case (Int(m), Int(n)) => NumberPrint("%!s(int=", m, n);
    case (Float(m), Float(n)) => NumberPrint("%!s(float64=", m, n);
    case _ =>
  }

  lemma NoDash(n: int)
    requires n >= 0
    ensures '-' !in Itoa(n)
  {
    assert forall i :: 0 <= i < |Digits(n)| ==> IsDigit(Digits(n)[i]);
  }

  lemma KeyParts(a: Entry, b: Entry)
    requires Plain(a) && Plain(b) && DedupKey(a) == DedupKey(b)
    ensures a.backend == b.backend && PrintedArch(a.arch) == PrintedArch(b.arch) && Itoa(a.warp) == Itoa(b.warp)
  {
    NoDash(a.warp);
    NoDash(b.warp);
    KeySplits(a.backend, b.backend, PrintedArch(a.arch), PrintedArch(b.arch), Itoa(a.warp), Itoa(b.warp));
  }

  lemma KeySplits(a: string, b: string, p: string, q: string, c: string, d: string)
    requires '-' !in a && '-' !in b && '-' !in c && '-' !in d
    requires a + "-" + p + "-" + c == b + "-" + q + "-" + d
    ensures a == b && p == q && c == d
  {
    assert a + "-" + p + "-" + c == a + "-" + (p + "-" + c);
    assert b + "-" + q + "-" + d == b + "-" + (q + "-" + d);
    SplitFirst('-', a, b, p + "-" + c, q + "-" + d);
    SplitLast('-', p, q, c, d);
  }

  /** Entries with the same key have the same target. */
  lemma KeyIsInjective(a: Entry, b: Entry)
    requires Plain(a) && Plain(b) && DedupKey(a) == DedupKey(b)
    ensures TargetOf(a) == TargetOf(b)
  {
    KeyParts(a, b);
    PrintIsInjective(a.warp, b.warp);
    PrintedArchInjective(a.arch, b.arch);
  }

  // ---------- Building the summary ----------

  /** Entry `j` is the first with its key. */
  ghost predicate First(metadata: seq<Entry>, j: nat) {
    j < |metadata| && forall i :: 0 <= i < j ==> DedupKey(metadata[i]) != DedupKey(metadata[j])
  }

  ghost predicate FirstWith(metadata: seq<Entry>, key: string, t: Target) {
    exists j: nat :: First(metadata, j) && key == DedupKey(metadata[j]) && t == TargetOf(metadata[j])
  }

  ghost predicate Kept(metadata: seq<Entry>, t: Target) {
    exists j: nat :: First(metadata, j) && t == TargetOf(metadata[j])
  }

  /** The summary holds the targets of the first entry with each key, and no others. */
  ghost predicate Summarizes(targets: seq<Target>, metadata: seq<Entry>) {
    forall t :: t in targets <==> Kept(metadata, t)
  }

  function Keys(metadata: seq<Entry>, count: nat): set<string>
    requires count <= |metadata|
  {
    set i | 0 <= i < count :: DedupKey(metadata[i])
  }

  /** The map holds the target of the first entry with each key seen so far. */
  ghost predicate SeenSoFar(metadata: seq<Entry>, seen: map<string, Target>, count: nat)
    requires count <= |metadata|
  {
    seen.Keys == Keys(metadata, count) && forall k :: k in seen ==> FirstWith(metadata, k, seen[k])
  }

  lemma KeysNext(metadata: seq<Entry>, i: nat)
    requires i < |metadata|
    ensures Keys(metadata, i + 1) == Keys(metadata, i) + {DedupKey(metadata[i])}
  {
  }

  lemma NewIsFirst(metadata: seq<Entry>, i: nat)
    requires i < |metadata| && DedupKey(metadata[i]) !in Keys(metadata, i)
    ensures FirstWith(metadata, DedupKey(metadata[i]), TargetOf(metadata[i]))
  {
    assert First(metadata, i);
  }

  lemma SeenPut(metadata: seq<Entry>, seen: map<string, Target>, i: nat, key: string, t: Target)
    requires i < |metadata| && seen.Keys == Keys(metadata, i) && Keys(metadata, i + 1) == Keys(metadata, i) + {key}
    requires FirstWith(metadata, key, t) && forall k :: k in seen ==> FirstWith(metadata, k, seen[k])
    ensures SeenSoFar(metadata, seen[key := t], i + 1)
  {
  }

  lemma SeenOld(metadata: seq<Entry>, seen: map<string, Target>, i: nat, key: string)
    requires i < |metadata| && SeenSoFar(metadata, seen, i) && Keys(metadata, i + 1) == Keys(metadata, i) + {key} && key in seen
    ensures SeenSoFar(metadata, seen, i + 1)
  {
  }

  method CollectTargets(metadata: seq<Entry>) returns (seen: map<string, Target>)
    ensures SeenSoFar(metadata, seen, |metadata|)
  {
    seen := map[];
    for i := 0 to |metadata|
      invariant SeenSoFar(metadata, seen, i)
    {
      var key := DedupKey(metadata[i]);
      KeysNext(metadata, i);
      if key !in seen {
        NewIsFirst(metadata, i);
        SeenPut(metadata, seen, i, key, TargetOf(metadata[i]));
        seen := seen[key := TargetOf(metadata[i])];
      } else {
        SeenOld(metadata, seen, i, key);
      }
    }
  }

  /** One target per key: that of the first entry with the key. */
  method BuildTritonSummary(metadata: seq<Entry>) returns (summary: Option<seq<Target>>)
    ensures summary.None? <==> metadata == []
    ensures summary.Some? ==> Summarizes(summary.value, metadata) && |summary.value| == |Keys(metadata, |metadata|)|
  {
    if metadata == [] {
      return None;
    }
    var seen := CollectTargets(metadata);
    var targets := ListTargets(seen);
    SeenSummarizes(metadata, seen, targets);
    summary := Some(targets);
  }

  lemma FirstIsKey(metadata: seq<Entry>, j: nat, seen: map<string, Target>)
    requires First(metadata, j) && SeenSoFar(metadata, seen, |metadata|)
    ensures DedupKey(metadata[j]) in seen && seen[DedupKey(metadata[j])] == TargetOf(metadata[j])
  {
    var key := DedupKey(metadata[j]);
    assert FirstWith(metadata, key, seen[key]);
    var i: nat :| First(metadata, i) && key == DedupKey(metadata[i]) && seen[key] == TargetOf(metadata[i]);
    assert !(i < j) && !(j < i);
  }

  lemma SeenSummarizes(metadata: seq<Entry>, seen: map<string, Target>, targets: seq<Target>)
    requires SeenSoFar(metadata, seen, |metadata|)
    requires forall t :: t in targets <==> exists k :: k in seen && seen[k] == t
    ensures Summarizes(targets, metadata)
  {
    forall t ensures t in targets <==> Kept(metadata, t) {
      if t in targets {
        var k :| k in seen && seen[k] == t;
        assert FirstWith(metadata, k, t);
      }
      if Kept(metadata, t) {
        var j: nat :| First(metadata, j) && t == TargetOf(metadata[j]);
        FirstIsKey(metadata, j, seen);
      }
    }
  }

  /** The values of a map, in any order. */
  method ListTargets(seen: map<string, Target>) returns (targets: seq<Target>)
    ensures |targets| == |seen.Keys|
    ensures forall t :: t in targets <==> exists k :: k in seen && seen[k] == t
  {
    targets := [];
    var todo := seen.Keys;
    while todo != {}
      invariant todo <= seen.Keys && |targets| + |todo| == |seen.Keys|
      invariant forall t :: t in targets <==> exists k :: k in seen && k !in todo && seen[k] == t
      decreases |todo|
    {
      var k :| k in todo;
      todo := todo - {k};
      targets := targets + [seen[k]];
    }
  }

  // ---------- Matching ----------

  function NormalizeArch(backend: string, arch: string): string {
    if backend == "cuda" && "sm_" <= arch then arch[3..] else arch
  }

  /** For CUDA the prefix of a compute capability is dropped; anything else is left as it is. */
  lemma NormalizedExactly(backend: string, arch: string)
    ensures forall capability :: arch == "sm_" + capability ==>
              NormalizeArch(backend, arch) == if backend == "cuda" then capability else arch
    ensures (forall capability :: arch != "sm_" + capability) ==> NormalizeArch(backend, arch) == arch
  {
    if "sm_" <= arch {
      assert arch == "sm_" + arch[3..];
    }
  }

  predicate Fits(t: Target, gpu: TritonInfo) {
    t.backend == gpu.backend && NormalizeArch(t.backend, t.arch) == NormalizeArch(gpu.backend, gpu.arch) && t.warp == gpu.warpSize
  }

  ghost predicate SomeTargetFits(targets: seq<Target>, gpu: TritonInfo) {
    exists k :: 0 <= k < |targets| && Fits(targets[k], gpu)
  }

  ghost predicate SomeEntryFits(metadata: seq<Entry>, gpu: TritonInfo) {
    exists i :: 0 <= i < |metadata| && Fits(TargetOf(metadata[i]), gpu)
  }

  /** The summary never claims more than the metadata. */
  lemma SummaryIsSound(targets: seq<Target>, metadata: seq<Entry>, gpu: TritonInfo)
    requires Summarizes(targets, metadata) && SomeTargetFits(targets, gpu)
    ensures SomeEntryFits(metadata, gpu)
  {
    var k :| 0 <= k < |targets| && Fits(targets[k], gpu);
    assert targets[k] in targets && Kept(metadata, targets[k]);
  }

  // ---------- When nothing is lost ----------

  /** Entries that fit the same GPUs. */
  predicate SameFit(a: Entry, b: Entry) {
    && a.backend == b.backend && a.warp == b.warp
    && NormalizeArch(a.backend, ConvertArchToString(a.arch)) == NormalizeArch(b.backend, ConvertArchToString(b.arch))
  }

  /** Entry `i` agrees with an entry that is the first with its key. */
  ghost predicate Represented(metadata: seq<Entry>, i: nat)
    requires i < |metadata|
  {
    exists j: nat :: First(metadata, j) && SameFit(metadata[i], metadata[j])
  }

  /** The GPU an entry was compiled on. */
  function OwnGpu(e: Entry): TritonInfo {
    TritonInfo("", "", "", ConvertArchToString(e.arch), e.warp, 0, e.ptx, e.backend, 0)
  }

  /** The entry's own GPU fits the summary if and only if the entry is represented. */
  lemma OwnGpuFits(targets: seq<Target>, metadata: seq<Entry>, i: nat)
    requires Summarizes(targets, metadata) && i < |metadata|
    ensures SomeTargetFits(targets, OwnGpu(metadata[i])) <==> Represented(metadata, i)
  {
    var gpu := OwnGpu(metadata[i]);
    if SomeTargetFits(targets, gpu) {
      var k :| 0 <= k < |targets| && Fits(targets[k], gpu);
      assert targets[k] in targets && Kept(metadata, targets[k]);
      var j: nat :| First(metadata, j) && targets[k] == TargetOf(metadata[j]);
      assert SameFit(metadata[i], metadata[j]);
    }
    if Represented(metadata, i) {
      var j: nat :| First(metadata, j) && SameFit(metadata[i], metadata[j]);
      assert Kept(metadata, TargetOf(metadata[j]));
      var k :| 0 <= k < |targets| && targets[k] == TargetOf(metadata[j]);
      assert Fits(targets[k], gpu);
    }
  }

  lemma RepresentedFits(targets: seq<Target>, metadata: seq<Entry>, i: nat, gpu: TritonInfo)
    requires Summarizes(targets, metadata) && i < |metadata| && Represented(metadata, i) && Fits(TargetOf(metadata[i]), gpu)
    ensures SomeTargetFits(targets, gpu)
  {
    var j: nat :| First(metadata, j) && SameFit(metadata[i], metadata[j]);
    assert Kept(metadata, TargetOf(metadata[j]));
    var k :| 0 <= k < |targets| && targets[k] == TargetOf(metadata[j]);
    assert Fits(targets[k], gpu);
  }

  /** The summary decides exactly what the metadata decides, for every GPU. */
  ghost predicate Lossless(targets: seq<Target>, metadata: seq<Entry>) {
    forall gpu :: SomeTargetFits(targets, gpu) <==> SomeEntryFits(metadata, gpu)
  }

  /** A summary is lossless if and only if every entry agrees with one that is the first with its key. */
  lemma LosslessExactlyWhen(targets: seq<Target>, metadata: seq<Entry>)
    requires Summarizes(targets, metadata)
    ensures Lossless(targets, metadata) <==> forall i: nat :: i < |metadata| ==> Represented(metadata, i)
  {
    if Lossless(targets, metadata) {
      forall i: nat | i < |metadata| ensures Represented(metadata, i) {
        OwnGpuFits(targets, metadata, i);
        assert Fits(TargetOf(metadata[i]), OwnGpu(metadata[i]));
      }
    } else {
      var gpu :| SomeTargetFits(targets, gpu) != SomeEntryFits(metadata, gpu);
      if SomeTargetFits(targets, gpu) {
        SummaryIsSound(targets, metadata, gpu);
      }
      var i: nat :| i < |metadata| && Fits(TargetOf(metadata[i]), gpu);
      if Represented(metadata, i) {
        RepresentedFits(targets, metadata, i, gpu);
      }
    }
  }

  lemma {:induction false} FirstOf(metadata: seq<Entry>, i: nat) returns (j: nat)
    requires i < |metadata|
    ensures First(metadata, j) && DedupKey(metadata[j]) == DedupKey(metadata[i])
  {
    j := i;
    if !First(metadata, i) {
      var k: nat :| k < i && DedupKey(metadata[k]) == DedupKey(metadata[i]);
      j := FirstOf(metadata, k);
    }
  }

  /** For plain entries the summary loses nothing. */
  lemma SummaryIsLossless(targets: seq<Target>, metadata: seq<Entry>)
    requires Summarizes(targets, metadata) && forall i :: 0 <= i < |metadata| ==> Plain(metadata[i])
    ensures Lossless(targets, metadata)
  {
    forall i: nat | i < |metadata| ensures Represented(metadata, i) {
      var j := FirstOf(metadata, i);
      KeyIsInjective(metadata[i], metadata[j]);
      assert SameFit(metadata[i], metadata[j]);
    }
    LosslessExactlyWhen(targets, metadata);
  }
}
