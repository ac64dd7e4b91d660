/** The AMD device object and its start-up: probing, saving to the cache file, restoring from it. */
module DeviceMain {
  import opened ApiTypes
  import opened Decimal
  import opened GpuFleet
  import opened Devices

  datatype DeviceType = Mock | Amd | Nvml | Rocm

  /** What the vendor tools report for one card. */
  datatype Card = Card(uuid: string, arch: string, vramValue: int, vramUnit: string, product: string, driver: string)

  const WORD := 0x1_0000_0000_0000_0000

  function Truncated(a: int, b: int): int
    requires b > 0
  {
    if a >= 0 then a / b else -((-a) / b)
  }

  /** Unsigned 64-bit megabytes; the conversion of a negative size wraps around. */
  function MemoryMB(value: int, unit: string): nat {
    (if unit == "GB" then value * 1024 else if unit == "KB" then Truncated(value, 1024) else value) % WORD
  }

  function ProbeCard(id: int, card: Card): Gpu {
    Gpu(id,
        TritonInfo("card" + Itoa(id), card.uuid, "", card.arch, 64, MemoryMB(card.vramValue, card.vramUnit), 0, "hip", id),
        DeviceSummary(Itoa(id), card.driver, card.product))
  }

  /** Gigabytes and kilobytes are converted, and any other unit is taken for megabytes. */
  lemma MemoryIsMegabytes(value: int, unit: string)
    ensures MemoryMB(value, unit) < WORD
    ensures unit == "GB" && 0 <= 1024 * value < WORD ==> MemoryMB(value, unit) == 1024 * value
    ensures unit == "KB" && 0 <= value < WORD ==> 1024 * MemoryMB(value, unit) <= value < 1024 * MemoryMB(value, unit) + 1024
    ensures unit != "GB" && unit != "KB" && 0 <= value < WORD ==> MemoryMB(value, unit) == value
    ensures unit != "GB" && unit != "KB" && -WORD <= value < 0 ==> MemoryMB(value, unit) == WORD + value
    ensures unit == "KB" && -1024 < value < 0 ==> MemoryMB(value, unit) == 0
  {
  }

  /** Every card is summed up under its id by that id, its own driver and its own product. */
  ghost predicate Labelled(cards: map<int, Card>, devices: map<int, Gpu>) {
    && devices.Keys == cards.Keys
    && forall id :: id in cards ==>
         && devices[id].summary.id == Itoa(id)
         && devices[id].summary.driver == cards[id].driver && devices[id].summary.product == cards[id].product
  }

  /** Every card is filed under its id, with its own identity, architecture and memory. */
  ghost predicate Filed(cards: map<int, Card>, devices: map<int, Gpu>) {
    && devices.Keys == cards.Keys
    && forall id :: id in cards ==>
         && devices[id].id == id && devices[id].info.id == id && devices[id].info.name == "card" + Itoa(id)
         && devices[id].info.uuid == cards[id].uuid && devices[id].info.arch == cards[id].arch
         && devices[id].info.warpSize == 64 && devices[id].info.backend == "hip"
         && devices[id].info.memoryMB == MemoryMB(cards[id].vramValue, cards[id].vramUnit)
  }

  ghost function Probe(cards: map<int, Card>): map<int, Gpu> {
    map id | id in cards :: ProbeCard(id, cards[id])
  }

  /** Ids are machine integers. */
  ghost predicate Machine(cards: map<int, Card>) {
    forall id :: id in cards ==> MIN_INT64 <= id <= MAX_INT64
  }

  // ---------- From the cards to the fleet ----------

  /** Each listed summary is that of a card. */
  lemma CardAt(cards: map<int, Card>, devices: map<int, Gpu>, keys: seq<int>, i: nat)
    requires Machine(cards) && Labelled(cards, devices) && Enumerates(keys, devices) && i < |keys|
    ensures keys[i] in cards && i < |Summaries(devices, keys)|
    ensures var s := Summaries(devices, keys)[i];
            s.product == cards[keys[i]].product && s.driver == cards[keys[i]].driver && ParsedId(s.id) == keys[i]
  {
    PrintedIdIsRead(keys[i]);
    assert keys[i] in devices;
  }

  /** The summaries of the cards, listed in any order. */
  lemma CardListed(cards: map<int, Card>, devices: map<int, Gpu>, keys: seq<int>, id: int, key: Key)
    requires Machine(cards) && Labelled(cards, devices) && Enumerates(keys, devices)
    ensures id in IdsOf(Summaries(devices, keys), key)
            <==> id in cards && cards[id].product == key.product && cards[id].driver == key.driver
  {
    IdsAreParsed(Summaries(devices, keys), key, id);
    forall i | 0 <= i < |keys|
      ensures var s := Summaries(devices, keys)[i];
              keys[i] in cards && s.product == cards[keys[i]].product && s.driver == cards[keys[i]].driver && ParsedId(s.id) == keys[i]
    {
      CardAt(cards, devices, keys, i);
    }
    ListedExactly(cards, keys, Summaries(devices, keys), id, key);
  }

  lemma ListedExactly(cards: map<int, Card>, keys: seq<int>, all: seq<DeviceSummary>, id: int, key: Key)
    requires |all| == |keys| && forall k :: k in keys <==> k in cards
    requires forall i :: 0 <= i < |keys| ==>
               && keys[i] in cards && all[i].product == cards[keys[i]].product && all[i].driver == cards[keys[i]].driver
               && ParsedId(all[i].id) == keys[i]
    ensures (exists s :: s in all && s.product == key.product && s.driver == key.driver && ParsedId(s.id) == id)
            <==> id in cards && cards[id].product == key.product && cards[id].driver == key.driver
  {
    if s :| s in all && s.product == key.product && s.driver == key.driver && ParsedId(s.id) == id {
      var i :| 0 <= i < |all| && all[i] == s;
    }
    if id in cards && cards[id].product == key.product && cards[id].driver == key.driver {
      var i :| 0 <= i < |keys| && keys[i] == id;
      assert all[i] in all;
    }
  }

  /**
   * From the cards to the fleet: a group holds the ids of exactly the cards with its product and driver, and every card has
   * a group.
   */
  lemma FleetOfCards(cards: map<int, Card>, devices: map<int, Gpu>, keys: seq<int>, groups: seq<Group>)
    requires Machine(cards) && Labelled(cards, devices) && Enumerates(keys, devices) && Summarizes(groups, Summaries(devices, keys))
    ensures forall i, id :: 0 <= i < |groups| ==>
              (id in groups[i].ids <==>
                 id in cards && cards[id].product == groups[i].key.product && cards[id].driver == groups[i].key.driver)
    ensures forall id :: id in cards ==> Among(groups, Key(cards[id].product, cards[id].driver))
  {
    var all := Summaries(devices, keys);
    forall i, id | 0 <= i < |groups|
      ensures id in groups[i].ids <==>
                id in cards && cards[id].product == groups[i].key.product && cards[id].driver == groups[i].key.driver
    {
      CardListed(cards, devices, keys, id, groups[i].key);
      assert id in groups[i].ids <==> id in multiset(groups[i].ids);
    }
    forall id | id in cards ensures Among(groups, Key(cards[id].product, cards[id].driver)) {
      var i :| 0 <= i < |keys| && keys[i] == id;
      assert KeyOf(all[i]) == Key(cards[id].product, cards[id].driver);
    }
  }

  datatype CachedDevice = CachedDevice(name: string, kind: DeviceType, hwType: string, info: seq<TritonInfo>, summaries: seq<DeviceSummary>)

  lemma SomeMember(s: set<int>)
    requires s != {}
    ensures exists k :: k in s
  {
    assert (forall k :: k !in s) ==> s == {};
  }

  class GpuDevice {
    var name: string
    var kind: DeviceType
    var hwType: string
    var tritonInfo: seq<TritonInfo>
    var summaries: seq<DeviceSummary>
    var devices: map<int, Gpu>

    constructor (kind: DeviceType)
      ensures this.kind == kind && tritonInfo == [] && summaries == [] && devices == map[]
    {
      name, this.kind, hwType, tritonInfo, summaries, devices := "", kind, "", [], [], map[];
    }

    /** Restoring the GPU infos starts the device map over, so no GPU of an earlier state stays in it. */
    method SetTritonInfo(info: seq<TritonInfo>)
      modifies this`tritonInfo, this`devices
      ensures tritonInfo == info && devices == RestoreInfo(info)
    {
      tritonInfo := info;
      devices := map[];
      for i := 0 to |info|
        invariant tritonInfo == info && devices == RestoreInfo(info[..i])
      {
        assert info[..i + 1][..i] == info[..i];
        devices := devices[info[i].id := Gpu(info[i].id, info[i], NO_SUMMARY)];
      }
      assert info[..|info|] == info;
    }

    method SetSummaries(restored: seq<DeviceSummary>)
      modifies this`summaries, this`devices
      ensures summaries == restored && devices == RestoreSummaries(old(devices), restored)
    {
      summaries := restored;
      for i := 0 to |restored|
        invariant summaries == restored && devices == RestoreSummaries(old(devices), restored[..i])
      {
        assert restored[..i + 1][..i] == restored[..i];
        var id := Scan(restored[i].id);
        if id.Some? && id.value in devices {
          devices := devices[id.value := devices[id.value].(summary := restored[i])];
        }
      }
      assert restored[..|restored|] == restored;
    }

    /** Probe the cards, in any order. Summaries handed out earlier stay cached, also when the cards have changed. */
    method Init(cards: map<int, Card>)
      modifies this`devices
      ensures devices == Probe(cards) && Filed(cards, devices) && Labelled(cards, devices) && (Machine(cards) ==> Probed(devices))
    {
      devices := map[];
      var todo := cards.Keys;
      while todo != {}
        invariant todo <= cards.Keys
        invariant devices == map id | id in cards && id !in todo :: ProbeCard(id, cards[id])
        decreases |todo|
      {
        SomeMember(todo);
        var id :| id in todo;
        devices := devices[id := ProbeCard(id, cards[id])];
        todo := todo - {id};
      }
    }

    method GetAllGPUInfo() returns (info: seq<TritonInfo>, ghost keys: seq<int>)
      ensures Enumerates(keys, devices) && info == Infos(devices, keys)
    {
      info, keys := [], [];
      var todo := devices.Keys;
      while todo != {}
        invariant todo <= devices.Keys && Within(keys, devices) && info == Infos(devices, keys)
        invariant forall k :: k in keys <==> k in devices && k !in todo
        invariant forall i, j :: 0 <= i < j < |keys| ==> keys[i] != keys[j]
        decreases |todo|
      {
        SomeMember(todo);
        var k :| k in todo;
        assert (keys + [k])[..|keys|] == keys;
        info, keys := info + [devices[k].info], keys + [k];
        todo := todo - {k};
      }
    }

    method ListSummaries() returns (listed: seq<DeviceSummary>, ghost keys: seq<int>)
      ensures Enumerates(keys, devices) && listed == Summaries(devices, keys)
    {
      listed, keys := [], [];
      var todo := devices.Keys;
      while todo != {}
        invariant todo <= devices.Keys && Within(keys, devices) && listed == Summaries(devices, keys)
        invariant forall k :: k in keys <==> k in devices && k !in todo
        invariant forall i, j :: 0 <= i < j < |keys| ==> keys[i] != keys[j]
        decreases |todo|
      {
        SomeMember(todo);
        var k :| k in todo;
        assert (keys + [k])[..|keys|] == keys;
        listed, keys := listed + [devices[k].summary], keys + [k];
        todo := todo - {k};
      }
    }

    /** Summaries are listed once and handed out again from then on. */
    method GetAllSummaries() returns (listed: seq<DeviceSummary>, ghost keys: seq<int>)
      modifies this`summaries
      ensures summaries == listed
      ensures if old(summaries) != [] then listed == old(summaries)
              else Enumerates(keys, devices) && listed == Summaries(devices, keys)
    {
      keys := [];
      if summaries != [] {
        return summaries, keys;
      }
      listed, keys := ListSummaries();
      summaries := listed;
    }
  }

  // ---------- Saving and restoring ----------

  /** The cache entry holds the infos and the summaries of the map, each in some order. */
  ghost predicate SavedFrom(cached: CachedDevice, devices: map<int, Gpu>) {
    exists infoKeys, summaryKeys ::
      && Enumerates(infoKeys, devices) && Enumerates(summaryKeys, devices)
      && cached.info == Infos(devices, infoKeys) && cached.summaries == Summaries(devices, summaryKeys)
  }

  method SaveDevice(device: GpuDevice) returns (cached: CachedDevice)
    modifies device`summaries
    ensures cached.kind == device.kind && cached.name == device.name && cached.hwType == device.hwType
    ensures cached.summaries == device.summaries
    ensures old(device.summaries) == [] ==> SavedFrom(cached, device.devices)
  {
    var info, infoKeys := device.GetAllGPUInfo();
    var listed, summaryKeys := device.GetAllSummaries();
    cached := CachedDevice(device.name, device.kind, device.hwType, info, listed);
  }

  /** The device carries everything that was saved. */
  ghost predicate Restored(device: GpuDevice, cached: CachedDevice)
    reads device
  {
    && device.name == cached.name && device.kind == cached.kind && device.hwType == cached.hwType
    && device.summaries == cached.summaries && device.tritonInfo == cached.info
    && device.devices == RestoreSummaries(RestoreInfo(cached.info), cached.summaries)
  }

  method InitializeFromCache(device: GpuDevice, cached: CachedDevice)
    modifies device
    ensures Restored(device, cached)
    ensures forall devices :: Probed(devices) && SavedFrom(cached, devices) ==> device.devices == devices
  {
    device.name := cached.name;
    device.kind := cached.kind;
    device.hwType := cached.hwType;
    device.SetTritonInfo(cached.info);
    device.SetSummaries(cached.summaries);
    forall devices | Probed(devices) && SavedFrom(cached, devices) ensures device.devices == devices {
      var infoKeys, summaryKeys :|
        && Enumerates(infoKeys, devices) && Enumerates(summaryKeys, devices)
        && cached.info == Infos(devices, infoKeys) && cached.summaries == Summaries(devices, summaryKeys);
      RestoredIsProbed(devices, infoKeys, summaryKeys);
    }
  }

  /**
   * Start a device: from the cache file when it names a registered, supported type, otherwise by probing the registered
   * types in any order and saving the first that answers. A device restored from what a probe saved agrees with the probe.
   */
  method Startup(saved: Option<CachedDevice>, registered: map<DeviceType, Option<map<int, Card>>>)
    returns (device: GpuDevice?, saved': Option<CachedDevice>)
    requires forall t :: t in registered && registered[t].Some? ==> Machine(registered[t].value)
    ensures device != null ==> fresh(device)
    ensures saved.Some? && saved.value.kind in registered ==>
              saved' == saved && (device == null <==> saved.value.kind == Mock)
    ensures saved.Some? && saved.value.kind in registered && device != null ==>
              Restored(device, saved.value) && forall devices :: Probed(devices) && SavedFrom(saved.value, devices) ==> device.devices == devices
    ensures !(saved.Some? && saved.value.kind in registered) && device != null ==>
              && device.kind in registered && registered[device.kind].Some? && device.devices == Probe(registered[device.kind].value)
              && Probed(device.devices) && saved'.Some? && saved'.value.kind == device.kind && SavedFrom(saved'.value, device.devices)
    ensures !(saved.Some? && saved.value.kind in registered) && device == null ==>
              saved' == saved && forall t :: t in registered ==> registered[t].None?
  {
    device, saved' := null, saved;
    if saved.Some? && saved.value.kind in registered {
      if saved.value.kind == Mock {
        return;
      }
      var restored := new GpuDevice(saved.value.kind);
      InitializeFromCache(restored, saved.value);
      return restored, saved;
    }
    var todo := registered.Keys;
    while todo != {}
      invariant todo <= registered.Keys && forall t :: t in registered && t !in todo ==> registered[t].None?
      decreases |todo|
    {
      var t :| t in todo;
      todo := todo - {t};
      if registered[t].Some? {
        var probed := new GpuDevice(t);
        probed.Init(registered[t].value);
        var cached := SaveDevice(probed);
        return probed, Some(cached);
      }
    }
  }
}
