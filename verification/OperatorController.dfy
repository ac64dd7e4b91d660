/** The operator as it runs: each step changes the API objects, the entry at hand and the cache object in place. */
module OperatorController {
  import opened ApiTypes
  import opened Kube
  import opened Fleet
  import opened OperatorSpec
  import opened OperatorFacts
  import opened ApiServer
  import opened NodeCounts

  // ---------- Counts ----------

  ghost predicate ReportedBy(nodes: seq<Option<CacheNode>>, ns: string, count: nat)
    requires count <= |nodes|
  {
    exists n :: 0 <= n < count && Lists(nodes[n]) && ns in nodes[n].value.listed.value
  }

  ghost predicate Tallies(nodes: seq<Option<CacheNode>>, count: nat, spaces: map<string, CacheCounts>)
    requires count <= |nodes|
  {
    forall ns :: (ns in spaces <==> ReportedBy(nodes, ns, count)) && (ns in spaces ==> spaces[ns] == SpaceCounts(nodes, ns, count))
  }

  /** Add one entry to the counts of its namespace. */
  method CountCondition(before: CacheCounts, cond: Condition) returns (cnts: CacheCounts)
    ensures cnts == before.Plus(ConditionCount(cond))
  {
    cnts := before;
    match cond
    case Extracted => cnts := cnts.(nodeNotInUse := cnts.nodeNotInUse + 1);
    case Running => cnts := cnts.(nodeInUse := cnts.nodeInUse + 1);
    case Deleting => cnts := cnts.(podDeleting := cnts.podDeleting + 1);
    case Error => cnts := cnts.(nodeError := cnts.nodeError + 1);
    case UnloadError => cnts := cnts.(nodeError := cnts.nodeError + 1);
    case Outdated => cnts := cnts.(podOutdated := cnts.podOutdated + 1);
    case _ =>
  }

  lemma {:induction false} UnreportedCountsZero(nodes: seq<Option<CacheNode>>, ns: string, count: nat)
    requires count <= |nodes| && !ReportedBy(nodes, ns, count)
    ensures SpaceCounts(nodes, ns, count) == ZERO_COUNTS
  {
    if count > 0 {
      UnreportedCountsZero(nodes, ns, count - 1);
    }
  }

  /** The entries of one node not in `todo` are counted, the others not yet. */
  ghost predicate Partly(entries: map<string, PvcStatus>, todo: set<string>, before: map<string, CacheCounts>, spaces: map<string, CacheCounts>) {
    && spaces.Keys == before.Keys + (entries.Keys - todo)
    && (forall ns :: ns in spaces && (ns in todo || ns !in entries) ==> spaces[ns] == before[ns])
    && (forall ns :: ns in entries && ns !in todo ==>
          spaces[ns] == (if ns in before then before[ns] else ZERO_COUNTS).Plus(ConditionCount(entries[ns].cond)))
  }

  lemma NodeCounted(nodes: seq<Option<CacheNode>>, count: nat, before: map<string, CacheCounts>, spaces: map<string, CacheCounts>)
    requires count < |nodes| && Lists(nodes[count]) && Tallies(nodes, count, before)
    requires Partly(nodes[count].value.listed.value, {}, before, spaces)
    ensures Tallies(nodes, count + 1, spaces)
  {
    var entries := nodes[count].value.listed.value;
    forall ns
      ensures (ns in spaces <==> ReportedBy(nodes, ns, count + 1)) && (ns in spaces ==> spaces[ns] == SpaceCounts(nodes, ns, count + 1))
    {
      assert ns in before <==> ReportedBy(nodes, ns, count);
      assert ReportedBy(nodes, ns, count + 1) <==> ReportedBy(nodes, ns, count) || ns in entries;
      if ns !in before {
        UnreportedCountsZero(nodes, ns, count);
      }
    }
  }

  /** The entries of one node, in any order. */
  method CountNode(entries: map<string, PvcStatus>, before: map<string, CacheCounts>) returns (spaces: map<string, CacheCounts>)
    ensures Partly(entries, {}, before, spaces)
  {
    spaces := before;
    var todo := entries.Keys;
    while todo != {}
      invariant todo <= entries.Keys && Partly(entries, todo, before, spaces)
      decreases |todo|
    {
      var ns :| ns in todo;
      var cnts := CountCondition(if ns in spaces then spaces[ns] else ZERO_COUNTS, entries[ns].cond);
      spaces := spaces[ns := cnts];
      todo := todo - {ns};
    }
  }

  method CollectNodeCounts(nodes: seq<Option<CacheNode>>) returns (counts: CacheCounts, spaces: map<string, CacheCounts>)
    ensures counts == SumCounts(nodes, |nodes|)
    ensures forall ns :: ns in spaces <==> Reported(nodes, ns)
    ensures forall ns :: ns in spaces ==> spaces[ns] == SpaceCounts(nodes, ns, |nodes|)
    ensures SumsNodes(nodes, counts)
    ensures forall ns :: ns in spaces ==> CountsNodes(nodes, ns, |nodes|, spaces[ns])
  {
    counts, spaces := ZERO_COUNTS, map[];
    for n := 0 to |nodes|
      invariant counts == SumCounts(nodes, n) && Tallies(nodes, n, spaces)
    {
      if Lists(nodes[n]) {
        var seen := nodes[n].value.counts;
        counts := CacheCounts(
          counts.nodeCnt + seen.nodeCnt, counts.nodeInUse + seen.nodeInUse, counts.nodeNotInUse + seen.nodeNotInUse,
          counts.nodeError + seen.nodeError, counts.podRunning + seen.podRunning, counts.podDeleting + seen.podDeleting,
          counts.podOutdated + seen.podOutdated);
        ghost var before := spaces;
        spaces := CountNode(nodes[n].value.listed.value, spaces);
        NodeCounted(nodes, n, before, spaces);
      } else {
        assert forall ns :: ReportedBy(nodes, ns, n + 1) <==> ReportedBy(nodes, ns, n);
      }
    }
    assert forall ns :: Reported(nodes, ns) <==> ReportedBy(nodes, ns, |nodes|);
    SumCountsExactly(nodes);
    forall ns ensures CountsNodes(nodes, ns, |nodes|, SpaceCounts(nodes, ns, |nodes|)) {
      SpaceCountsExactly(nodes, ns, |nodes|);
    }
  }

  method DetermineOwnerOf(modes: seq<AccessMode>) returns (owner: PvcOwner)
    ensures owner == DetermineOwner(modes)
  {
    owner := Agent;
    for i := 0 to |modes|
      invariant owner == if ReadOnlyMany in modes[..i] then Operator else Agent
    {
      if modes[i] == ReadOnlyMany {
        owner := Operator;
      }
    }
    assert modes[..|modes|] == modes;
  }

  // ---------- One entry ----------

  method SummarizeEntry(e: Entry, cnts: CacheCounts) returns (updated: bool)
    modifies e`cond
    ensures Summarize(old(e.Value()), cnts) == (e.Value(), updated)
  {
    updated := false;
    if cnts.nodeError != 0 {
      if e.cond != Error {
        e.cond := Extracted;
        updated := true;
      }
    } else if cnts.podOutdated != 0 {
      if e.cond != Outdated {
        e.cond := Outdated;
        updated := true;
      }
    } else if cnts.nodeInUse != 0 {
      if e.cond != Running {
        e.cond := Running;
        updated := true;
      }
    } else if cnts.nodeNotInUse != 0 {
      if e.cond != Extracted {
        e.cond := Extracted;
        updated := true;
      }
    }
  }

  /** `spaces` is what CollectNodeCounts found; it is collected early only when the agents own the cache. */
  ghost predicate CollectedEarly(v: View, spaces: map<string, CacheCounts>) {
    forall ns :: (ns in spaces <==> v.owner == Agent && Reported(v.nodes, ns))
                 && (ns in spaces ==> spaces[ns] == SpaceCounts(v.nodes, ns, |v.nodes|))
  }

  method ManagePVandPVC(api: KubeApi, v: View, ns: string, spaces: map<string, CacheCounts>, e: Entry)
    returns (updated: bool, pending: bool, err: bool)
    requires WellFormed(api.State()) && CollectedEarly(v, spaces)
    modifies api, e
    ensures OperatorSpec.ManageVolume(old(api.State()), v, ns, old(e.Value())) == Managed(api.State(), e.Value(), updated, pending, err)
  {
    updated, pending, err := false, false, false;
    if e.cond == NoNamespace && ns in api.spaces {
      e.cond := Pending;
      updated := true;
    }
    if e.cond == Pending {
      if ns !in api.spaces {
        e.cond := NoNamespace;
        return true, false, false;
      }
      if v.owner == Agent && v.counts.nodeInUse == 0 && v.counts.nodeNotInUse == 0 {
        return updated, true, false;
      }
      var before := api.pvcs;
      var done;
      done, err := api.EnsureVolume(v.cfg.kind, e, Labels(ns, ""), UniqueName(v.cfg.cache, v.uid), v.cfg.cache);
      updated := updated || done;
      if !err && api.pvcs != before && v.owner == Agent && !DownloadSet(e.cond) {
        e.cond := Extracted;
      }
    } else if ns in spaces {
      var done := SummarizeEntry(e, spaces[ns]);
      updated := updated || done;
    }
  }

  method FollowLatest(api: KubeApi, e: Entry, k: ObjKey) returns (updated: bool, pending: bool)
    requires k in api.jobs && !DownloadSet(e.cond)
    modifies e
    ensures OperatorSpec.FollowJob(api.State(), old(e.Value()), k) == Managed(api.State(), e.Value(), updated, pending, false)
  {
    updated, pending := false, false;
    var job := api.jobs[k];
    if e.jobName != k.name {
      e.jobName := k.name;
      updated := true;
    }
    if job.succeeded > 0 {
      if !DownloadSet(e.cond) {
        e.cond := Extracted;
        updated := true;
      }
    } else if job.ready > 0 {
      if e.cond != Downloading {
        e.cond := Downloading;
        updated := true;
      }
    } else {
      pending := true;
    }
  }

  method ManageJob(api: KubeApi, v: View, ns: string, e: Entry) returns (updated: bool, pending: bool, err: bool)
    requires WellFormed(api.State())
    modifies api, e
    ensures OperatorSpec.ManageJob(old(api.State()), v, ns, old(e.Value())) == Managed(api.State(), e.Value(), updated, pending, err)
  {
    updated, pending, err := false, false, false;
    var l := Labels(ns, "");
    if e.cond == Pending {
      err := api.LaunchJob(e.pvcName, l, e.pvcName + v.uid, Operator);
      if !err {
        e.cond := Downloading;
        updated := true;
      }
    } else if !DownloadSet(e.cond) {
      var latest := api.GetLatestJob(l, v.cfg.cache);
      if latest.None? {
        pending := true;
      } else {
        updated, pending := FollowLatest(api, e, latest.value);
      }
    }
  }

  method ManagePvcStatusModify(api: KubeApi, v: View, ns: string, spaces: map<string, CacheCounts>, e: Entry)
    returns (updated: bool, pending: bool, err: bool)
    requires WellFormed(api.State()) && CollectedEarly(v, spaces)
    modifies api, e
    ensures OperatorSpec.Modify(old(api.State()), v, ns, old(e.Value())) == Managed(api.State(), e.Value(), updated, pending, err)
  {
    ghost var c, start := api.State(), e.Value();
    VolumeIdle(c, v, ns, start);
    updated, pending, err := ManagePVandPVC(api, v, ns, spaces, e);
    if err || updated || pending {
      return;
    }
    if v.owner == Operator {
      updated, pending, err := ManageJob(api, v, ns, e);
    }
  }

  // ---------- The namespace loop ----------

  /** One turn for a namespace that stays. `stop` tells that the status has to be written now. */
  method ModifyTurn(api: KubeApi, v: View, spaces: map<string, CacheCounts>, k: nat, entries: map<string, PvcStatus>, updated: bool,
                    ghost pvcDeleting: bool)
    returns (entries': map<string, PvcStatus>, updated': bool, stop: bool)
    requires WellFormed(api.State()) && CollectedEarly(v, spaces) && k < |v.cfg.namespaces|
    requires var ns := v.cfg.namespaces[k]; !v.deleting && !(ns in api.spaces && api.spaces[ns])
    modifies api
    ensures var after := Loop(api.State(), entries', updated', pvcDeleting);
            LoopFrom(v, Loop(old(api.State()), entries, updated, pvcDeleting), k) == if stop then after else LoopFrom(v, after, k + 1)
    ensures !stop ==> api.State() == old(api.State())
  {
    var ns := v.cfg.namespaces[k];
    entries', updated', stop := entries, updated, false;
    var e := new Entry(NewEntry(Operator));
    if ns in entries {
      e := new Entry(entries[ns]);
    } else {
      updated' := true;
    }
    OperatorFacts.ModifyIdle(api.State(), v, ns, e.Value());
    var pvcUpdated, pending, err := ManagePvcStatusModify(api, v, ns, spaces, e);
    if err {
      return;
    }
    updated' := updated' || pvcUpdated;
    if updated' {
      entries' := entries[ns := e.Value()];
      stop := true;
    }
  }

  /** One turn for a cache or a namespace that is being deleted. */
  method ReleaseTurn(api: KubeApi, v: View, k: nat, entries: map<string, PvcStatus>, updated: bool, pvcDeleting: bool)
    returns (entries': map<string, PvcStatus>, updated': bool, pvcDeleting': bool, stop: bool)
    requires WellFormed(api.State()) && k < |v.cfg.namespaces|
    requires var ns := v.cfg.namespaces[k]; v.deleting || (ns in api.spaces && api.spaces[ns])
    modifies api
    ensures var after := Loop(api.State(), entries', updated', pvcDeleting');
            LoopFrom(v, Loop(old(api.State()), entries, updated, pvcDeleting), k) == if stop then after else LoopFrom(v, after, k + 1)
    ensures !stop ==> api.State() == old(api.State())
  {
    var ns := v.cfg.namespaces[k];
    entries', updated', pvcDeleting', stop := entries, updated, pvcDeleting, false;
    if ns !in entries {
      return;
    }
    var e := new Entry(entries[ns]);
    ManageDeleteQuiet(api.State(), entries[ns], Operator, Labels(ns, ""));
    var inUse, err;
    updated', inUse, pvcDeleting', err := api.ManagePvcStatusDelete(e, Operator, Labels(ns, ""));
    if err {
      return;
    }
    if (inUse || pvcDeleting') && e.cond != Deleting {
      e.cond := Deleting;
      updated' := true;
    }
    if !updated' && !inUse && !pvcDeleting' {
      entries' := entries - {ns};
      updated', stop := true, true;
    } else if updated' {
      entries' := entries[ns := e.Value()];
      stop := true;
    }
  }

  /** One turn of the loop, for a namespace that stays or one that goes. */
  method Turn(api: KubeApi, v: View, spaces: map<string, CacheCounts>, k: nat, entries: map<string, PvcStatus>, updated: bool,
              pvcDeleting: bool)
    returns (entries': map<string, PvcStatus>, updated': bool, pvcDeleting': bool, stop: bool)
    requires WellFormed(api.State()) && CollectedEarly(v, spaces) && k < |v.cfg.namespaces|
    modifies api
    ensures var after := Loop(api.State(), entries', updated', pvcDeleting');
            LoopFrom(v, Loop(old(api.State()), entries, updated, pvcDeleting), k) == if stop then after else LoopFrom(v, after, k + 1)
    ensures !stop ==> api.State() == old(api.State())
  {
    var ns := v.cfg.namespaces[k];
    if !v.deleting && !(ns in api.spaces && api.spaces[ns]) {
      pvcDeleting' := pvcDeleting;
      entries', updated', stop := ModifyTurn(api, v, spaces, k, entries, updated, pvcDeleting);
    } else {
      entries', updated', pvcDeleting', stop := ReleaseTurn(api, v, k, entries, updated, pvcDeleting);
    }
  }

  method RunNamespaces(api: KubeApi, v: View, spaces: map<string, CacheCounts>, start: map<string, PvcStatus>)
    returns (entries: map<string, PvcStatus>, updated: bool, pvcDeleting: bool)
    requires WellFormed(api.State()) && CollectedEarly(v, spaces)
    modifies api
    ensures Loop(api.State(), entries, updated, pvcDeleting) == LoopFrom(v, Loop(old(api.State()), start, false, false), 0)
  {
    entries, updated, pvcDeleting := start, false, false;
    var k, stop := 0, false;
    while k < |v.cfg.namespaces| && !stop
      invariant k <= |v.cfg.namespaces|
      invariant !stop ==> api.State() == old(api.State())
      invariant var s := Loop(api.State(), entries, updated, pvcDeleting);
                LoopFrom(v, Loop(old(api.State()), start, false, false), 0) == if stop then s else LoopFrom(v, s, k)
      decreases |v.cfg.namespaces| - k, !stop
    {
      entries, updated, pvcDeleting, stop := Turn(api, v, spaces, k, entries, updated, pvcDeleting);
      k := k + 1;
    }
  }

  // ---------- The pass ----------

  /** The cache object as the API server stores it. */
  class CacheStore {
    var cache: CacheObj

    method AddFinalizer() returns (changed: bool)
      modifies this
      ensures changed == !old(cache.finalizer) && cache == old(cache).(finalizer := true)
    {
      changed := !cache.finalizer;
      cache := cache.(finalizer := true);
    }

    /** Without its last finalizer an object that is being deleted goes away. */
    method RemoveFinalizer()
      modifies this
      ensures cache == old(cache).(finalizer := false, gone := true)
    {
      cache := cache.(finalizer := false, gone := true);
    }

    /** Status writes go through the API server, which may refuse them. */
    method UpdateStatus(status: CacheObj, writeOk: bool)
      modifies this
      ensures cache == if writeOk then status else old(cache)
    {
      if writeOk {
        cache := status;
      }
    }
  }

  method AdjustCondition(cond: Option<Condition>, counts: CacheCounts) returns (cond': Option<Condition>)
    ensures cond' == CacheCondition(cond, counts)
  {
    cond' := cond;
    if counts.nodeError != 0 {
      cond' := Some(Error);
    } else if counts.podOutdated != 0 {
      cond' := Some(Outdated);
    } else if counts.nodeInUse != 0 {
      cond' := Some(Running);
    } else if counts.nodeNotInUse != 0 {
      cond' := Some(Extracted);
    }
  }

  /** The status a pass works on: the owner is decided on first sight, and the counts are collected when agents own the cache. */
  method PrepareStatus(cache: CacheObj, nodes: seq<Option<CacheNode>>, ghost c: Cluster) returns (status: CacheObj, spaces: map<string, CacheCounts>)
    ensures status == StartStatus(World(c, cache, nodes))
    ensures forall ns :: (ns in spaces <==> status.owner == Agent && Reported(nodes, ns))
                         && (ns in spaces ==> spaces[ns] == SpaceCounts(nodes, ns, |nodes|))
  {
    status, spaces := cache.(counts := ZERO_COUNTS), map[];
    if cache.owner == Unknown {
      var owner := DetermineOwnerOf(cache.modes);
      status := status.(cond := Some(Pending), owner := owner);
    }
    if status.owner == Agent {
      var counts;
      counts, spaces := CollectNodeCounts(nodes);
      status := status.(counts := counts);
    }
  }

  /** A whole pass of the operator over the cache object. */
  method Reconcile(api: KubeApi, store: CacheStore, cfg: Config, nodes: seq<Option<CacheNode>>, uid: string, writeOk: bool)
    requires WellFormed(api.State())
    modifies api, store
    ensures OperatorPass(cfg, World(old(api.State()), old(store.cache), nodes), uid, writeOk) == World(api.State(), store.cache, nodes)
  {
    var cache := store.cache;
    if cache.gone {
      return;
    }
    if !cache.deleting {
      var changed := store.AddFinalizer();
      if changed {
        return;
      }
    }
    var status, spaces := PrepareStatus(cache, nodes, api.State());
    var v := View(cfg, nodes, status.owner, status.counts, cache.deleting, uid);
    var entries, updated, pvcDeleting := RunNamespaces(api, v, spaces, status.entries);
    if updated {
      store.UpdateStatus(status.(entries := entries), writeOk);
      return;
    }
    if status.owner == Operator {
      var counts, ignored := CollectNodeCounts(nodes);
      status := status.(counts := counts);
    }
    var cond := AdjustCondition(status.cond, status.counts);
    status := status.(cond := cond);
    if status != cache {
      store.UpdateStatus(status, writeOk);
    } else if cache.deleting && status.counts.nodeCnt == 0 && !pvcDeleting {
      store.RemoveFinalizer();
    }
  }
}
