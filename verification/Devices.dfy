/** Detected GPUs, saved to a cache file and restored from it, whatever order a map is gone through in. */
module Devices {
  import opened ApiTypes
  import opened Decimal
  import opened GpuFleet
  import opened Sums

  datatype TritonInfo = TritonInfo(
    name: string,
    uuid: string,
    capability: string,
    arch: string,
    warpSize: int,
    memoryMB: nat,
    ptxVersion: int,
    backend: string,
    id: int)

  datatype Gpu = Gpu(id: int, info: TritonInfo, summary: DeviceSummary)

  const NO_SUMMARY := DeviceSummary("", "", "")

  // ---------- Scanning an id ----------

  function DigitsAhead(s: string): (n: nat)
    ensures n <= |s|
  {
    if s == "" || !IsDigit(s[0]) then 0 else 1 + DigitsAhead(s[1..])
  }

  /** Read a signed decimal number from the front of a string; what follows is ignored. */
  function Scan(s: string): Option<int> {
    var sign := if s != "" && (s[0] == '-' || s[0] == '+') then s[..1] else "";
    ParseInt(s[..|sign| + DigitsAhead(s[|sign|..])])
  }

  lemma {:induction false} AllDigitsAhead(s: string)
    requires forall i :: 0 <= i < |s| ==> IsDigit(s[i])
    ensures DigitsAhead(s) == |s|
  {
    if s != "" {
      AllDigitsAhead(s[1..]);
    }
  }

  lemma ScanPrinted(n: int)
    requires MIN_INT64 <= n <= MAX_INT64
    ensures Scan(Itoa(n)) == Some(n)
  {
    FirstChar(n);
    var s := Itoa(n);
    assert n >= 0 ==> IsDigit(s[0]);
    if n < 0 {
      assert s[1..] == Digits(-n);
      AllDigitsAhead(Digits(-n));
    } else {
      assert s[0..] == s;
      AllDigitsAhead(Digits(n));
    }
    assert s[..|s|] == s;
    ParsePrinted(n);
  }

  lemma {:induction false} DigitsStop(digits: string, rest: string)
    requires (forall i :: 0 <= i < |digits| ==> IsDigit(digits[i])) && (rest != "" ==> !IsDigit(rest[0]))
    ensures DigitsAhead(digits + rest) == |digits|
  {
    if digits == "" {
      assert digits + rest == rest;
    } else {
      assert (digits + rest)[1..] == digits[1..] + rest;
      DigitsStop(digits[1..], rest);
    }
  }

  /** Scanning parses a sign and the digits after it, and ignores what follows. */
  lemma ScanExactly(sign: string, digits: string, rest: string)
    requires sign in {"", "-", "+"} && IsNumeral(digits) && (rest != "" ==> !IsDigit(rest[0]))
    ensures Scan(sign + digits + rest) == ParseInt(sign + digits)
  {
    var s := sign + digits + rest;
    DigitsStop(digits, rest);
    assert s[|sign|..] == digits + rest;
    assert s[0] == if sign == "" then digits[0] else sign[0];
    assert s[..|sign| + |digits|] == sign + digits;
  }

  // ---------- Restoring, as functions ----------

  /** The device map that a list of GPU infos fills; a later entry with the same id wins. */
  function RestoreInfo(info: seq<TritonInfo>): map<int, Gpu> {
    if info == [] then map[]
    else
      var last := info[|info| - 1];
      RestoreInfo(info[..|info| - 1])[last.id := Gpu(last.id, last, NO_SUMMARY)]
  }

  function AttachSummary(devices: map<int, Gpu>, s: DeviceSummary): map<int, Gpu> {
    match Scan(s.id)
    case None => devices
    case Some(id) => if id in devices then devices[id := devices[id].(summary := s)] else devices
  }

  function RestoreSummaries(devices: map<int, Gpu>, summaries: seq<DeviceSummary>): map<int, Gpu> {
    if summaries == [] then devices
    else AttachSummary(RestoreSummaries(devices, summaries[..|summaries| - 1]), summaries[|summaries| - 1])
  }

  // ---------- What restoring yields ----------

  /** The last element with the property stands at position `i`. */
  ghost predicate LastInfo(info: seq<TritonInfo>, id: int, i: nat) {
    i < |info| && info[i].id == id && forall j :: i < j < |info| ==> info[j].id != id
  }

  ghost predicate LastSummary(summaries: seq<DeviceSummary>, id: int, i: nat) {
    i < |summaries| && Scan(summaries[i].id) == Some(id) && forall j :: i < j < |summaries| ==> Scan(summaries[j].id) != Some(id)
  }

  lemma LastInfoBefore(info: seq<TritonInfo>, id: int, i: nat)
    requires info != [] && info[|info| - 1].id != id
    ensures LastInfo(info, id, i) <==> LastInfo(info[..|info| - 1], id, i)
  {
  }

  /** Restoring infos files each of them under its id; of several with one id the last one stays. */
  lemma {:induction false} RestoreInfoExactly(info: seq<TritonInfo>, id: int)
    ensures id in RestoreInfo(info) <==> exists i: nat :: LastInfo(info, id, i)
    ensures forall i: nat :: LastInfo(info, id, i) ==> id in RestoreInfo(info) && RestoreInfo(info)[id] == Gpu(id, info[i], NO_SUMMARY)
  {
    if info != [] {
      var n := |info| - 1;
      RestoreInfoExactly(info[..n], id);
      if info[n].id == id {
        assert LastInfo(info, id, n);
      } else {
        forall i: nat ensures LastInfo(info, id, i) <==> LastInfo(info[..n], id, i) {
          LastInfoBefore(info, id, i);
        }
      }
    }
  }

  /** What restoring summaries leaves of a device. */
  ghost predicate Given(devices: map<int, Gpu>, restored: map<int, Gpu>, summaries: seq<DeviceSummary>, id: int) {
    && (id in restored <==> id in devices)
    && (id in devices ==>
          && restored[id] == devices[id].(summary := restored[id].summary)
          && (forall i: nat :: LastSummary(summaries, id, i) ==> restored[id].summary == summaries[i])
          && ((forall i: nat :: !LastSummary(summaries, id, i)) ==> restored[id] == devices[id]))
  }

  lemma LastSummaryBefore(summaries: seq<DeviceSummary>, id: int, i: nat)
    requires summaries != [] && Scan(summaries[|summaries| - 1].id) != Some(id)
    ensures LastSummary(summaries, id, i) <==> LastSummary(summaries[..|summaries| - 1], id, i)
  {
  }

  /** Restoring summaries gives each device the last summary that scans to its id, and adds no device. */
  lemma {:induction false} RestoreSummariesExactly(devices: map<int, Gpu>, summaries: seq<DeviceSummary>, id: int)
    ensures Given(devices, RestoreSummaries(devices, summaries), summaries, id)
  {
    if summaries != [] {
      var n := |summaries| - 1;
      RestoreSummariesExactly(devices, summaries[..n], id);
      if Scan(summaries[n].id) == Some(id) {
        assert LastSummary(summaries, id, n);
      } else {
        forall i: nat ensures LastSummary(summaries, id, i) <==> LastSummary(summaries[..n], id, i) {
          LastSummaryBefore(summaries, id, i);
        }
      }
    }
  }

  // ---------- What probing yields ----------

  /** Every GPU is filed under its own id, its summary carries the id in print. */
  ghost predicate Probed(devices: map<int, Gpu>) {
    forall id :: id in devices ==>
      && MIN_INT64 <= id <= MAX_INT64
      && devices[id].id == id && devices[id].info.id == id && devices[id].summary.id == Itoa(id)
  }

  /** The keys of a map in some order. */
  ghost predicate Enumerates(keys: seq<int>, devices: map<int, Gpu>) {
    && (forall k :: k in keys <==> k in devices) && Within(keys, devices)
    && (forall i, j :: 0 <= i < j < |keys| ==> keys[i] != keys[j])
  }

  ghost predicate Within(keys: seq<int>, devices: map<int, Gpu>) {
    forall i :: 0 <= i < |keys| ==> keys[i] in devices
  }

  ghost function Infos(devices: map<int, Gpu>, keys: seq<int>): (info: seq<TritonInfo>)
    requires Within(keys, devices)
    ensures |info| == |keys| && forall i :: 0 <= i < |keys| ==> info[i] == devices[keys[i]].info
  {
    if keys == [] then [] else Infos(devices, keys[..|keys| - 1]) + [devices[keys[|keys| - 1]].info]
  }

  ghost function Summaries(devices: map<int, Gpu>, keys: seq<int>): (summaries: seq<DeviceSummary>)
    requires Within(keys, devices)
    ensures |summaries| == |keys| && forall i :: 0 <= i < |keys| ==> summaries[i] == devices[keys[i]].summary
  {
    if keys == [] then [] else Summaries(devices, keys[..|keys| - 1]) + [devices[keys[|keys| - 1]].summary]
  }

  // ---------- The restored map is the probed one ----------

  lemma {:induction false} InfoRestored(devices: map<int, Gpu>, keys: seq<int>)
    requires Probed(devices) && Within(keys, devices)
    ensures var restored := RestoreInfo(Infos(devices, keys));
            && (forall k :: k in restored <==> k in keys)
            && forall k :: k in keys ==> restored[k] == devices[k].(summary := NO_SUMMARY)
  {
    if keys != [] {
      var init, last := keys[..|keys| - 1], keys[|keys| - 1];
      InfoRestored(devices, init);
      assert Infos(devices, keys)[..|keys| - 1] == Infos(devices, init);
      assert keys == init + [last];
    }
  }

  /** The summaries of the keys seen so far are attached, the others are still missing. */
  ghost predicate Attached(devices: map<int, Gpu>, restored: map<int, Gpu>, keys: seq<int>) {
    && restored.Keys == devices.Keys
    && forall k :: k in devices ==> restored[k] == if k in keys then devices[k] else devices[k].(summary := NO_SUMMARY)
  }

  lemma {:induction false} SummariesRestored(devices: map<int, Gpu>, bare: map<int, Gpu>, keys: seq<int>)
    requires Probed(devices) && Attached(devices, bare, []) && Within(keys, devices)
    ensures Attached(devices, RestoreSummaries(bare, Summaries(devices, keys)), keys)
  {
    if keys != [] {
      var init, last := keys[..|keys| - 1], keys[|keys| - 1];
      SummariesRestored(devices, bare, init);
      assert Summaries(devices, keys)[..|keys| - 1] == Summaries(devices, init);
      assert keys == init + [last];
      ScanPrinted(last);
    }
  }

  lemma BareIsAttached(devices: map<int, Gpu>, keys: seq<int>)
    requires Probed(devices) && Enumerates(keys, devices)
    ensures Attached(devices, RestoreInfo(Infos(devices, keys)), [])
  {
    InfoRestored(devices, keys);
    var bare := RestoreInfo(Infos(devices, keys));
    assert forall k :: k in bare <==> k in devices;
  }

  lemma AllAttached(devices: map<int, Gpu>, restored: map<int, Gpu>, keys: seq<int>)
    requires Attached(devices, restored, keys) && Enumerates(keys, devices)
    ensures restored == devices
  {
    forall k ensures k in restored <==> k in devices {
    }
    forall k | k in devices ensures restored[k] == devices[k] {
      assert k in keys;
    }
  }

  /**
   * Saving the GPU infos and the summaries in any two orders and restoring them yields the probed device map, with every
   * id printed in the summary and parsed back on the way.
   */
  lemma RestoredIsProbed(devices: map<int, Gpu>, infoKeys: seq<int>, summaryKeys: seq<int>)
    requires Probed(devices) && Enumerates(infoKeys, devices) && Enumerates(summaryKeys, devices)
    ensures RestoreSummaries(RestoreInfo(Infos(devices, infoKeys)), Summaries(devices, summaryKeys)) == devices
  {
    var bare := RestoreInfo(Infos(devices, infoKeys));
    BareIsAttached(devices, infoKeys);
    SummariesRestored(devices, bare, summaryKeys);
    AllAttached(devices, RestoreSummaries(bare, Summaries(devices, summaryKeys)), summaryKeys);
  }

  // ---------- Any order lists the same summaries ----------

  function Carries(devices: map<int, Gpu>, s: DeviceSummary): int -> nat {
    k => if k in devices && devices[k].summary == s then 1 else 0
  }

  lemma {:induction false} SummariesCounted(devices: map<int, Gpu>, keys: seq<int>, s: DeviceSummary)
    requires Within(keys, devices)
    ensures multiset(Summaries(devices, keys))[s] == SumOver(Carries(devices, s), keys)
  {
    if keys != [] {
      SummariesCounted(devices, keys[..|keys| - 1], s);
    }
  }

  lemma SummariesAreOrderFree(devices: map<int, Gpu>, a: seq<int>, b: seq<int>)
    requires multiset(a) == multiset(b) && Within(a, devices) && Within(b, devices)
    ensures multiset(Summaries(devices, a)) == multiset(Summaries(devices, b))
  {
    forall s ensures multiset(Summaries(devices, a))[s] == multiset(Summaries(devices, b))[s] {
      SummariesCounted(devices, a, s);
      SummariesCounted(devices, b, s);
      SumIsOrderFree(Carries(devices, s), a, b);
    }
  }

  lemma {:induction false} SameKeys(a: seq<int>, b: seq<int>)
    requires forall k :: k in a <==> k in b
    requires forall i, j :: 0 <= i < j < |a| ==> a[i] != a[j]
    requires forall i, j :: 0 <= i < j < |b| ==> b[i] != b[j]
    ensures multiset(a) == multiset(b)
  {
    forall k ensures multiset(a)[k] == multiset(b)[k] {
      OnceOnly(a, k);
      OnceOnly(b, k);
    }
  }

  lemma {:induction false} OnceOnly(a: seq<int>, k: int)
    requires forall i, j :: 0 <= i < j < |a| ==> a[i] != a[j]
    ensures multiset(a)[k] == if k in a then 1 else 0
  {
    if a != [] {
      var n := |a| - 1;
      OnceOnly(a[..n], k);
      assert a == a[..n] + [a[n]];
    }
  }

  /** The fleet summary of a device is the same for every order in which its map is gone through. */
  lemma FleetIsOrderFree(devices: map<int, Gpu>, a: seq<int>, b: seq<int>, g: seq<Group>, h: seq<Group>)
    requires Enumerates(a, devices) && Enumerates(b, devices)
    requires Summarizes(g, Summaries(devices, a)) && Summarizes(h, Summaries(devices, b))
    ensures g == h
  {
    SameKeys(a, b);
    SummariesAreOrderFree(devices, a, b);
    SummaryIsCanonical(g, h, Summaries(devices, a), Summaries(devices, b));
  }
}
