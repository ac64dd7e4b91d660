/** The fleet summary: GPUs grouped by product and driver, in an order that does not depend on any map iteration. */
module GpuFleet {
  import opened ApiTypes
  import opened Decimal
  import opened Names
  import opened Sums

  datatype DeviceSummary = DeviceSummary(id: string, driver: string, product: string)

  datatype Key = Key(product: string, driver: string)

  datatype Group = Group(key: Key, ids: seq<int>)

  function KeyOf(s: DeviceSummary): Key {
    Key(s.product, s.driver)
  }

  /** Ids are parsed as far as that goes; Atoi yields zero, or the nearest bound, when it fails. */
  function ParsedId(id: string): int {
    match ParseInt(id)
    case Some(n) => n
    case None => OutOfRange(id)
  }

  function OutOfRange(id: string): int {
    var signed := id != "" && (id[0] == '-' || id[0] == '+');
    if Value(if signed then id[1..] else id).None? then 0
    else if id[0] == '-' then MIN_INT64 else MAX_INT64
  }

  /** The nearest 64-bit number. */
  function Clamp(n: int): int {
    if n < MIN_INT64 then MIN_INT64 else if n > MAX_INT64 then MAX_INT64 else n
  }

  /** A number, whatever its size and the zeros in front of it, yields the nearest 64-bit number; any other text zero. */
  lemma ParsedIdExactly(id: string)
    ensures !IsNumber(id) ==> ParsedId(id) == 0
    ensures IsNumeral(id) ==> Value(id).Some? && ParsedId(id) == Clamp(Value(id).value)
    ensures id != "" && id[0] == '+' && IsNumeral(id[1..]) ==> Value(id[1..]).Some? && ParsedId(id) == Clamp(Value(id[1..]).value)
    ensures id != "" && id[0] == '-' && IsNumeral(id[1..]) ==>
              Value(id[1..]).Some? && ParsedId(id) == Clamp(-(Value(id[1..]).value as int))
  {
    ParseExactly(id);
    NumeralsHaveValues(id);
    if id != "" {
      NumeralsHaveValues(id[1..]);
    }
  }

  /** Printed numbers are read as they are, or as the nearest 64-bit number. */
  lemma PrintedIdIsRead(n: int)
    ensures ParsedId(Itoa(n)) == Clamp(n)
  {
    ParsedIdExactly(Itoa(n));
    if n < 0 {
      ValueOfDigits(-n);
      assert Itoa(n)[0] == '-' && Itoa(n)[1..] == Digits(-n);
      NumeralsHaveValues(Digits(-n));
    } else {
      ValueOfDigits(n);
      NumeralsHaveValues(Digits(n));
    }
  }

  predicate KeyBefore(a: Key, b: Key) {
    if a.product == b.product then Before(a.driver, b.driver) else Before(a.product, b.product)
  }

  /** By product, and within one product by driver, in the order of text. */
  lemma KeyBeforeExactly(a: Key, b: Key)
    ensures KeyBefore(a, b) <==> Earlier(a.product, b.product) || (a.product == b.product && Earlier(a.driver, b.driver))
  {
    BeforeExactly(a.product, b.product);
    BeforeExactly(a.driver, b.driver);
    if Before(a.product, b.product) {
      BeforeIsStrict(a.product, b.product);
    }
  }

  lemma KeyOrder(a: Key, b: Key)
    ensures a == b || KeyBefore(a, b) || KeyBefore(b, a)
    ensures KeyBefore(a, b) ==> a != b && !KeyBefore(b, a)
  {
    BeforeIsTotal(a.product, b.product);
    BeforeIsTotal(a.driver, b.driver);
    if Before(a.product, b.product) { BeforeIsStrict(a.product, b.product); }
    if Before(a.driver, b.driver) { BeforeIsStrict(a.driver, b.driver); }
  }

  lemma KeyOrderTransitive(a: Key, b: Key, c: Key)
    requires KeyBefore(a, b) && KeyBefore(b, c)
    ensures KeyBefore(a, c)
  {
    if a.product == b.product == c.product {
      BeforeIsTransitive(a.driver, b.driver, c.driver);
    } else if a.product != b.product && b.product != c.product {
      BeforeIsTransitive(a.product, b.product, c.product);
      BeforeIsStrict(a.product, c.product);
    }
  }

  // ---------- What a summary is ----------

  ghost predicate GroupsSorted(groups: seq<Group>) {
    forall i, j :: 0 <= i < j < |groups| ==> KeyBefore(groups[i].key, groups[j].key)
  }

  ghost predicate Increasing(ids: seq<int>) {
    forall i, j :: 0 <= i < j < |ids| ==> ids[i] <= ids[j]
  }

  /** The parsed ids of all GPUs of one product and driver. */
  function IdsOf(summaries: seq<DeviceSummary>, key: Key): multiset<int> {
    if summaries == [] then multiset{}
    else IdsOf(summaries[..|summaries| - 1], key) + IdIn(summaries[|summaries| - 1], key)
  }

  function IdIn(s: DeviceSummary, key: Key): multiset<int> {
    if KeyOf(s) == key then multiset{ParsedId(s.id)} else multiset{}
  }

  ghost predicate HasKey(summaries: seq<DeviceSummary>, key: Key) {
    exists i :: 0 <= i < |summaries| && KeyOf(summaries[i]) == key
  }

  ghost predicate Among(groups: seq<Group>, key: Key) {
    exists i :: 0 <= i < |groups| && groups[i].key == key
  }

  /** Groups in strict order, ids in order, one group for every product and driver with exactly its ids. */
  ghost predicate Summarizes(groups: seq<Group>, summaries: seq<DeviceSummary>) {
    && GroupsSorted(groups)
    && (forall i :: 0 <= i < |groups| ==>
          && HasKey(summaries, groups[i].key)
          && Increasing(groups[i].ids) && multiset(groups[i].ids) == IdsOf(summaries, groups[i].key))
    && (forall key :: HasKey(summaries, key) ==> Among(groups, key))
  }

  /** The ids of a group are the parsed ids of the summaries with its product and driver. */
  lemma {:induction false} IdsAreParsed(summaries: seq<DeviceSummary>, key: Key, id: int)
    ensures id in IdsOf(summaries, key)
            <==> exists s :: s in summaries && s.product == key.product && s.driver == key.driver && ParsedId(s.id) == id
  {
    if summaries != [] {
      var n := |summaries| - 1;
      IdsAreParsed(summaries[..n], key, id);
      assert summaries == summaries[..n] + [summaries[n]];
    }
  }

  // ---------- It is canonical ----------

  function Counter(key: Key, id: int): DeviceSummary -> nat {
    s => if KeyOf(s) == key && ParsedId(s.id) == id then 1 else 0
  }

  lemma {:induction false} IdsCounted(summaries: seq<DeviceSummary>, key: Key, id: int)
    ensures IdsOf(summaries, key)[id] == SumOver(Counter(key, id), summaries)
  {
    if summaries != [] {
      IdsCounted(summaries[..|summaries| - 1], key, id);
    }
  }

  /** The ids of a group depend on the multiset of summaries only. */
  lemma IdsAreOrderFree(a: seq<DeviceSummary>, b: seq<DeviceSummary>, key: Key)
    requires multiset(a) == multiset(b)
    ensures IdsOf(a, key) == IdsOf(b, key)
  {
    forall id ensures IdsOf(a, key)[id] == IdsOf(b, key)[id] {
      IdsCounted(a, key, id);
      IdsCounted(b, key, id);
      SumIsOrderFree(Counter(key, id), a, b);
    }
  }

  lemma KeysAreOrderFree(a: seq<DeviceSummary>, b: seq<DeviceSummary>, key: Key)
    requires multiset(a) == multiset(b) && HasKey(a, key)
    ensures HasKey(b, key)
  {
    var i :| 0 <= i < |a| && KeyOf(a[i]) == key;
    assert a[i] in multiset(b);
    var j :| 0 <= j < |b| && b[j] == a[i];
  }

  lemma SmallestFirst(a: seq<int>, x: int)
    requires Increasing(a) && x in multiset(a)
    ensures a != [] && a[0] <= x
  {
    var i :| 0 <= i < |a| && a[i] == x;
  }

  lemma TailIds(a: seq<int>)
    requires a != []
    ensures multiset(a[1..]) == multiset(a) - multiset{a[0]}
  {
    assert a == [a[0]] + a[1..];
  }

  lemma SameHead(a: seq<int>, b: seq<int>)
    requires Increasing(a) && Increasing(b) && multiset(a) == multiset(b) && a != []
    ensures b != [] && a[0] == b[0]
  {
    assert a[0] in multiset(a);
    SmallestFirst(b, a[0]);
    assert b[0] in multiset(b);
    SmallestFirst(a, b[0]);
  }

  lemma SameTail(a: seq<int>, b: seq<int>)
    requires multiset(a) == multiset(b) && a != [] && b != [] && a[0] == b[0]
    ensures multiset(a[1..]) == multiset(b[1..])
  {
    TailIds(a);
    TailIds(b);
  }

  lemma {:induction false} SortedIdsUnique(a: seq<int>, b: seq<int>)
    requires Increasing(a) && Increasing(b) && multiset(a) == multiset(b)
    ensures |a| == |b| && forall i :: 0 <= i < |a| ==> a[i] == b[i]
    decreases |a|
  {
    if a == [] {
      assert |multiset(b)| == |b|;
    } else {
      SameHead(a, b);
      SameTail(a, b);
      SortedIdsUnique(a[1..], b[1..]);
      forall i | 0 <= i < |a| ensures i < |b| && a[i] == b[i] {
        assert i > 0 ==> a[i] == a[1..][i - 1] && i - 1 < |b[1..]| && b[i] == b[1..][i - 1];
      }
    }
  }

  /** Two summaries of the same GPUs, listed in any order, have the same groups in the same places. */
  lemma {:induction false} SameGroups(a: seq<Group>, b: seq<Group>, k: nat)
    requires GroupsSorted(a) && GroupsSorted(b) && k <= |a|
    requires forall i :: 0 <= i < |a| ==> Among(b, a[i].key)
    requires forall j :: 0 <= j < |b| ==> Among(a, b[j].key)
    ensures k <= |b| && forall i :: 0 <= i < k ==> a[i].key == b[i].key
  {
    if k > 0 {
      SameGroups(a, b, k - 1);
      var n := k - 1;
      var j :| 0 <= j < |b| && b[j].key == a[n].key;
      KeyNotBefore(a, b, n, j);
      var i :| 0 <= i < |a| && a[i].key == b[n].key;
      KeyNotBefore(b, a, n, i);
      SmallestIsFirst(a, b, n, i, j);
    }
  }

  /** Position `n` of one list cannot reappear earlier in the other when the lists agree up to there. */
  lemma KeyNotBefore(a: seq<Group>, b: seq<Group>, n: nat, j: nat)
    requires GroupsSorted(a) && n < |a| && j < |b| && b[j].key == a[n].key
    requires forall i :: 0 <= i < n && i < |b| ==> a[i].key == b[i].key
    ensures n <= j
  {
    if j < n {
      KeyOrder(a[j].key, a[n].key);
    }
  }

  lemma SmallestIsFirst(a: seq<Group>, b: seq<Group>, n: nat, i: nat, j: nat)
    requires GroupsSorted(a) && GroupsSorted(b) && n < |a| && n <= j < |b| && n <= i < |a|
    requires b[j].key == a[n].key && a[i].key == b[n].key
    ensures a[n].key == b[n].key
  {
    KeyOrder(a[n].key, b[n].key);
  }

  /** The summary is canonical: it depends on the multiset of GPU summaries only. */
  lemma SummaryIsCanonical(g: seq<Group>, h: seq<Group>, a: seq<DeviceSummary>, b: seq<DeviceSummary>)
    requires Summarizes(g, a) && Summarizes(h, b) && multiset(a) == multiset(b)
    ensures g == h
  {
    KeysMatch(g, h, a, b);
    KeysMatch(h, g, b, a);
    SameGroups(g, h, |g|);
    SameGroups(h, g, |h|);
    forall i | 0 <= i < |g| ensures g[i] == h[i] {
      IdsAreOrderFree(a, b, g[i].key);
      SortedIdsUnique(g[i].ids, h[i].ids);
    }
  }

  lemma KeysMatch(g: seq<Group>, h: seq<Group>, a: seq<DeviceSummary>, b: seq<DeviceSummary>)
    requires Summarizes(g, a) && Summarizes(h, b) && multiset(a) == multiset(b)
    ensures forall i :: 0 <= i < |g| ==> Among(h, g[i].key)
  {
    forall i | 0 <= i < |g| ensures Among(h, g[i].key) {
      KeysAreOrderFree(a, b, g[i].key);
    }
  }

  // ---------- It conserves ids ----------

  function AllIds(summaries: seq<DeviceSummary>): multiset<int> {
    if summaries == [] then multiset{}
    else AllIds(summaries[..|summaries| - 1]) + multiset{ParsedId(summaries[|summaries| - 1].id)}
  }

  function GroupIds(groups: seq<Group>): multiset<int> {
    if groups == [] then multiset{} else GroupIds(groups[..|groups| - 1]) + multiset(groups[|groups| - 1].ids)
  }

  function KeysCount(groups: seq<Group>, summaries: seq<DeviceSummary>, id: int): nat {
    if groups == [] then 0
    else KeysCount(groups[..|groups| - 1], summaries, id) + IdsOf(summaries, groups[|groups| - 1].key)[id]
  }

  lemma AmongLast(groups: seq<Group>, key: Key)
    requires GroupsSorted(groups) && groups != []
    ensures var n := |groups| - 1;
            && (Among(groups, key) <==> Among(groups[..n], key) || groups[n].key == key)
            && !(Among(groups[..n], key) && groups[n].key == key)
  {
    var n := |groups| - 1;
    assert forall i :: 0 <= i < n ==> groups[..n][i] == groups[i];
    if Among(groups[..n], key) {
      var i :| 0 <= i < n && groups[..n][i].key == key;
      KeyOrder(groups[i].key, groups[n].key);
    }
  }

  lemma IdsStep(summaries: seq<DeviceSummary>, key: Key, id: int)
    requires summaries != []
    ensures var last := summaries[|summaries| - 1];
            IdsOf(summaries, key)[id]
            == IdsOf(summaries[..|summaries| - 1], key)[id] + (if KeyOf(last) == key && ParsedId(last.id) == id then 1 else 0)
  {
  }

  lemma {:induction false} OneMore(groups: seq<Group>, summaries: seq<DeviceSummary>, id: int)
    requires GroupsSorted(groups) && summaries != []
    ensures var last := summaries[|summaries| - 1];
            KeysCount(groups, summaries, id)
            == KeysCount(groups, summaries[..|summaries| - 1], id)
               + (if Among(groups, KeyOf(last)) && ParsedId(last.id) == id then 1 else 0)
    decreases |groups|
  {
    if groups != [] {
      var n := |groups| - 1;
      OneMore(groups[..n], summaries, id);
      AmongLast(groups, KeyOf(summaries[|summaries| - 1]));
      IdsStep(summaries, groups[n].key, id);
    }
  }

  lemma {:induction false} NoneCounted(groups: seq<Group>, id: int)
    ensures KeysCount(groups, [], id) == 0
  {
    if groups != [] {
      NoneCounted(groups[..|groups| - 1], id);
    }
  }

  lemma {:induction false} CountsEveryId(groups: seq<Group>, summaries: seq<DeviceSummary>, id: int)
    requires GroupsSorted(groups) && forall i :: 0 <= i < |summaries| ==> Among(groups, KeyOf(summaries[i]))
    ensures KeysCount(groups, summaries, id) == AllIds(summaries)[id]
    decreases |summaries|
  {
    if summaries == [] {
      NoneCounted(groups, id);
    } else {
      OneMore(groups, summaries, id);
      CountsEveryId(groups, summaries[..|summaries| - 1], id);
    }
  }

  lemma {:induction false} GroupIdsCounted(groups: seq<Group>, summaries: seq<DeviceSummary>, id: int)
    requires forall i :: 0 <= i < |groups| ==> multiset(groups[i].ids) == IdsOf(summaries, groups[i].key)
    ensures GroupIds(groups)[id] == KeysCount(groups, summaries, id)
    decreases |groups|
  {
    if groups != [] {
      GroupIdsCounted(groups[..|groups| - 1], summaries, id);
    }
  }

  /** The ids of all groups together are a permutation of all parsed ids: no GPU is lost, none is counted twice. */
  lemma SummaryConservesIds(groups: seq<Group>, summaries: seq<DeviceSummary>)
    requires Summarizes(groups, summaries)
    ensures GroupIds(groups) == AllIds(summaries)
  {
    forall i | 0 <= i < |summaries| ensures Among(groups, KeyOf(summaries[i])) {
      assert HasKey(summaries, KeyOf(summaries[i]));
    }
    forall id ensures GroupIds(groups)[id] == AllIds(summaries)[id] {
      GroupIdsCounted(groups, summaries, id);
      CountsEveryId(groups, summaries, id);
    }
  }

  // ---------- Computing it ----------

  /** A number goes in after those up to it, and before the others. */
  lemma Inserted(ids: seq<int>, id: int, k: nat)
    requires Increasing(ids) && k <= |ids|
    requires (forall j :: 0 <= j < k ==> ids[j] <= id) && (k < |ids| ==> id < ids[k])
    ensures Increasing(ids[..k] + [id] + ids[k..])
  {
    var r := ids[..k] + [id] + ids[k..];
    forall i, j | 0 <= i < j < |r| ensures r[i] <= r[j] {
      assert i > k ==> r[i] == ids[i - 1];
      assert j > k ==> r[j] == ids[j - 1];
    }
  }

  lemma InsertedIds(ids: seq<int>, id: int, k: nat)
    requires k <= |ids|
    ensures multiset(ids[..k] + [id] + ids[k..]) == multiset(ids) + multiset{id}
  {
    assert ids == ids[..k] + ids[k..];
  }

  method InsertId(ids: seq<int>, id: int) returns (r: seq<int>)
    requires Increasing(ids)
    ensures Increasing(r) && multiset(r) == multiset(ids) + multiset{id}
  {
    var k := 0;
    while k < |ids| && ids[k] <= id
      invariant k <= |ids| && forall j :: 0 <= j < k ==> ids[j] <= id
    {
      k := k + 1;
    }
    Inserted(ids, id, k);
    InsertedIds(ids, id, k);
    r := ids[..k] + [id] + ids[k..];
  }

  method SortIds(ids: seq<int>) returns (r: seq<int>)
    ensures Increasing(r) && multiset(r) == multiset(ids)
  {
    r := [];
    for i := 0 to |ids|
      invariant Increasing(r) && multiset(r) == multiset(ids[..i])
    {
      assert ids[..i + 1] == ids[..i] + [ids[i]];
      r := InsertId(r, ids[i]);
    }
    assert ids[..|ids|] == ids;
  }

  method InsertGroup(groups: seq<Group>, g: Group) returns (r: seq<Group>)
    requires GroupsSorted(groups) && !Among(groups, g.key)
    ensures GroupsSorted(r) && forall h :: h in r <==> h == g || h in groups
  {
    var k := 0;
    while k < |groups| && KeyBefore(groups[k].key, g.key)
      invariant k <= |groups| && forall j :: 0 <= j < k ==> KeyBefore(groups[j].key, g.key)
    {
      k := k + 1;
    }
    r := groups[..k] + [g] + groups[k..];
    forall i, j | 0 <= i < j < |r| ensures KeyBefore(r[i].key, r[j].key) {
      if i == k {
        KeyOrder(groups[k].key, g.key);
        if j > k + 1 {
          KeyOrderTransitive(g.key, groups[k].key, groups[j - 1].key);
        }
      }
    }
    assert forall h :: h in groups ==> h in groups[..k] || h in groups[k..];
  }

  /** The groups in a map, as far as they have been collected. */
  ghost predicate Collected(grouped: map<Key, seq<int>>, summaries: seq<DeviceSummary>) {
    && (forall key :: key in grouped <==> HasKey(summaries, key))
    && (forall key :: key in grouped ==> multiset(grouped[key]) == IdsOf(summaries, key))
  }

  lemma KeyNext(summaries: seq<DeviceSummary>, i: nat, key: Key)
    requires i < |summaries|
    ensures HasKey(summaries[..i + 1], key) <==> HasKey(summaries[..i], key) || key == KeyOf(summaries[i])
    ensures IdsOf(summaries[..i + 1], key) == IdsOf(summaries[..i], key) + IdIn(summaries[i], key)
  {
    var longer := summaries[..i + 1];
    assert longer[..i] == summaries[..i] && longer[i] == summaries[i];
    assert forall j :: 0 <= j < i ==> longer[j] == summaries[..i][j];
  }

  /** The ids collected for the product and driver of the next GPU, with the id of that GPU. */
  function NextIds(grouped: map<Key, seq<int>>, s: DeviceSummary): seq<int> {
    (if KeyOf(s) in grouped then grouped[KeyOf(s)] else []) + [ParsedId(s.id)]
  }

  lemma NextIdsCollected(grouped: map<Key, seq<int>>, summaries: seq<DeviceSummary>, i: nat)
    requires i < |summaries| && Collected(grouped, summaries[..i])
    ensures multiset(NextIds(grouped, summaries[i])) == IdsOf(summaries[..i + 1], KeyOf(summaries[i]))
  {
    var key := KeyOf(summaries[i]);
    KeyNext(summaries, i, key);
    if key !in grouped {
      NoIds(summaries[..i], key);
    }
  }

  /** What has been collected for one product and driver. */
  ghost predicate CollectedKey(grouped: map<Key, seq<int>>, summaries: seq<DeviceSummary>, key: Key) {
    (key in grouped <==> HasKey(summaries, key)) && (key in grouped ==> multiset(grouped[key]) == IdsOf(summaries, key))
  }

  lemma CollectKey(grouped: map<Key, seq<int>>, summaries: seq<DeviceSummary>, i: nat, key: Key)
    requires i < |summaries| && Collected(grouped, summaries[..i])
    ensures CollectedKey(grouped[KeyOf(summaries[i]) := NextIds(grouped, summaries[i])], summaries[..i + 1], key)
  {
    KeyNext(summaries, i, key);
    if key == KeyOf(summaries[i]) {
      NextIdsCollected(grouped, summaries, i);
    } else {
      assert IdIn(summaries[i], key) == multiset{};
    }
  }

  lemma CollectNext(grouped: map<Key, seq<int>>, summaries: seq<DeviceSummary>, i: nat)
    requires i < |summaries| && Collected(grouped, summaries[..i])
    ensures Collected(grouped[KeyOf(summaries[i]) := NextIds(grouped, summaries[i])], summaries[..i + 1])
  {
    var after, seen := grouped[KeyOf(summaries[i]) := NextIds(grouped, summaries[i])], summaries[..i + 1];
    forall key
      ensures key in after <==> HasKey(seen, key)
      ensures key in after ==> multiset(after[key]) == IdsOf(seen, key)
    {
      CollectKey(grouped, summaries, i, key);
    }
  }

  lemma {:induction false} NoIds(summaries: seq<DeviceSummary>, key: Key)
    requires !HasKey(summaries, key)
    ensures IdsOf(summaries, key) == multiset{}
  {
    if summaries != [] {
      var init := summaries[..|summaries| - 1];
      assert forall j :: 0 <= j < |init| ==> init[j] == summaries[j];
      NoIds(init, key);
    }
  }

  /** Group, sort the ids of each group, and sort the groups; the map is gone through in any order. */
  method SummarizeDevice(summaries: seq<DeviceSummary>) returns (groups: seq<Group>)
    ensures Summarizes(groups, summaries)
  {
    var grouped: map<Key, seq<int>> := map[];
    for i := 0 to |summaries|
      invariant Collected(grouped, summaries[..i])
    {
      var s := summaries[i];
      CollectNext(grouped, summaries, i);
      grouped := grouped[KeyOf(s) := NextIds(grouped, s)];
    }
    assert summaries[..|summaries|] == summaries;
    groups := SortGroups(grouped, summaries);
  }

  /** The groups made so far are those of the keys no longer in `todo`. */
  ghost predicate Made(groups: seq<Group>, grouped: map<Key, seq<int>>, todo: set<Key>) {
    && (forall g :: g in groups ==> g.key in grouped && g.key !in todo && Increasing(g.ids) && multiset(g.ids) == multiset(grouped[g.key]))
    && (forall key :: key in grouped && key !in todo ==> Among(groups, key))
  }

  lemma MakeNext(groups: seq<Group>, groups': seq<Group>, grouped: map<Key, seq<int>>, todo: set<Key>, g: Group)
    requires Made(groups, grouped, todo) && g.key in todo && g.key in grouped
    requires Increasing(g.ids) && multiset(g.ids) == multiset(grouped[g.key])
    requires forall h :: h in groups' <==> h == g || h in groups
    ensures Made(groups', grouped, todo - {g.key})
  {
    AmongGrows(groups, groups', g);
  }

  lemma NotYet(groups: seq<Group>, grouped: map<Key, seq<int>>, todo: set<Key>, key: Key)
    requires Made(groups, grouped, todo) && key in todo
    ensures !Among(groups, key)
  {
    forall i | 0 <= i < |groups| ensures groups[i].key != key {
      assert groups[i] in groups;
    }
  }

  lemma MadeSummarizes(groups: seq<Group>, grouped: map<Key, seq<int>>, summaries: seq<DeviceSummary>)
    requires Collected(grouped, summaries) && Made(groups, grouped, {}) && GroupsSorted(groups)
    ensures Summarizes(groups, summaries)
  {
    forall i | 0 <= i < |groups|
      ensures HasKey(summaries, groups[i].key) && Increasing(groups[i].ids)
      ensures multiset(groups[i].ids) == IdsOf(summaries, groups[i].key)
    {
      assert groups[i] in groups;
    }
  }

  method SortGroups(grouped: map<Key, seq<int>>, ghost summaries: seq<DeviceSummary>) returns (groups: seq<Group>)
    requires Collected(grouped, summaries)
    ensures Summarizes(groups, summaries)
  {
    groups := [];
    var todo := grouped.Keys;
    while todo != {}
      invariant todo <= grouped.Keys && GroupsSorted(groups) && Made(groups, grouped, todo)
      decreases |todo|
    {
      var key :| key in todo;
      var ids := SortIds(grouped[key]);
      NotYet(groups, grouped, todo, key);
      var groups' := InsertGroup(groups, Group(key, ids));
      MakeNext(groups, groups', grouped, todo, Group(key, ids));
      groups, todo := groups', todo - {key};
    }
    MadeSummarizes(groups, grouped, summaries);
  }

  lemma AmongGrows(a: seq<Group>, b: seq<Group>, g: Group)
    requires forall h :: h in b <==> h == g || h in a
    ensures forall key :: Among(b, key) <==> Among(a, key) || key == g.key
  {
    forall key ensures Among(b, key) <==> Among(a, key) || key == g.key {
      if Among(a, key) {
        var i :| 0 <= i < |a| && a[i].key == key;
        assert a[i] in b;
      } else if Among(b, key) {
        var i :| 0 <= i < |b| && b[i].key == key;
        assert b[i] in b;
      }
      assert g in b;
    }
  }
}
