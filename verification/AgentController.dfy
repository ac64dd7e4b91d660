/** The node agent as it runs: each step changes the API objects, the entry at hand and the node object in place. */
module AgentController {
  import opened ApiTypes
  import opened Kube
  import opened Fleet
  import opened AgentSpec
  import opened AgentFacts
  import opened ApiServer

  /** The node object as the API server stores it. */
  class NodeStore {
    var node: Option<CacheNode>

    method Create()
      requires node.None?
      modifies this
      ensures node == Some(NEW_NODE)
    {
      node := Some(NEW_NODE);
    }

    method AddFinalizer() returns (changed: bool)
      requires node.Some?
      modifies this
      ensures changed == !old(node.value.finalizer)
      ensures node == Some(old(node.value).(finalizer := true))
    {
      changed := !node.value.finalizer;
      node := Some(node.value.(finalizer := true));
    }

    method RemoveFinalizer()
      requires node.Some?
      modifies this
      ensures node == Some(old(node.value).(finalizer := false))
    {
      node := Some(node.value.(finalizer := false));
    }

    /** Status writes go through the API server, which may refuse them. */
    method UpdateStatus(nodeName: string, counts: CacheCounts, listed: Option<map<string, PvcStatus>>, writeOk: bool)
      requires node.Some?
      modifies this
      ensures node == if writeOk then Some(CacheNode(old(node.value).finalizer, nodeName, counts, listed)) else old(node)
    {
      if writeOk {
        node := Some(CacheNode(node.value.finalizer, nodeName, counts, listed));
      }
    }
  }

  // ---------- One entry ----------

  method ManagePVandPVC(api: KubeApi, v: View, ns: string, e: Entry) returns (updated: bool, err: bool)
    requires WellFormed(api.State())
    modifies api, e
    ensures ManageVolume(old(api.State()), v, ns, old(e.Value())) == Managed(api.State(), e.Value(), updated, false, err)
  {
    updated, err := false, false;
    if e.cond == Pending && v.owner == Agent {
      var claim := if e.pvName != "" then e.pvName else UniqueName(v.cfg.cache, v.uid);
      updated, err := api.EnsureVolume(v.cfg.kind, e, Labels(ns, v.node), UniqueName(v.cfg.cache, v.uid), claim);
    }
  }

  method FollowLatest(api: KubeApi, e: Entry, k: ObjKey) returns (updated: bool, pending: bool)
    requires k in api.jobs && !DownloadSet(e.cond)
    modifies e
    ensures FollowJob(api.State(), old(e.Value()), k) == Managed(api.State(), e.Value(), updated, pending, false)
  {
    updated, pending := false, false;
    var job := api.jobs[k];
    if e.jobName != k.name {
      e.jobName := k.name;
      updated := true;
    }
    if job.succeeded > 0 {
      if !DownloadSet(e.cond) {
        e.cond := Extracted;
        updated := true;
      }
    } else if job.failed > 0 {
      if e.cond != Error {
        e.cond := Error;
        updated := true;
      }
    } else if job.ready > 0 {
      if e.cond != Downloading {
        e.cond := Downloading;
        updated := true;
      } else {
        pending := true;
      }
    } else {
      pending := true;
    }
  }

  method ManageJob(api: KubeApi, v: View, ns: string, e: Entry) returns (updated: bool, pending: bool, err: bool)
    requires WellFormed(api.State())
    modifies api, e
    ensures AgentSpec.ManageJob(old(api.State()), v, ns, old(e.Value())) == Managed(api.State(), e.Value(), updated, pending, err)
  {
    updated, pending, err := false, false, false;
    var l := Labels(ns, v.node);
    if v.owner == Agent {
      if e.cond == Pending {
        err := api.LaunchJob(e.pvcName, l, e.pvcName + "-job-download-" + v.uid, Agent);
        if !err {
          e.cond := Downloading;
          updated := true;
        }
      } else if DownloadSet(e.cond) {
        if e.cond == Deleting {
          e.cond := Running;
          updated := true;
        }
      } else {
        var latest := api.GetLatestJob(l, e.pvcName);
        if latest.None? {
          pending := true;
        } else {
          updated, pending := FollowLatest(api, e, latest.value);
        }
      }
    } else if e.pvcName == "" && ns in v.published && DownloadSet(v.published[ns].cond) {
      var p := v.published[ns];
      e.pvName, e.pvcName, e.cond := p.pvName, p.pvcName, p.cond;
      updated := true;
    }
  }

  method ManagePvcStatusModify(api: KubeApi, v: View, ns: string, e: Entry) returns (updated: bool, pending: bool, err: bool)
    requires WellFormed(api.State())
    modifies api, e
    ensures Modify(old(api.State()), v, ns, old(e.Value())) == Managed(api.State(), e.Value(), updated, pending, err)
  {
    ghost var c, start := api.State(), e.Value();
    pending := false;
    updated, err := ManagePVandPVC(api, v, ns, e);
    if err || updated {
      return;
    }
    assert ManageVolume(c, v, ns, start) == Idle(c, start);
    updated, pending, err := ManageJob(api, v, ns, e);
  }

  method CountEntry(api: KubeApi, v: View, ns: string, e: Entry, before: CacheCounts) returns (cnts: CacheCounts, updated: bool)
    modifies e`cond
    ensures AddCounts(api.State(), v, ns, old(e.Value()), before) == Counted.Counted(cnts, e.Value(), updated)
  {
    updated := false;
    cnts := before.(nodeCnt := 1);
    var use := 0;
    if e.pvcName != "" {
      use := api.GetPvcUsedByList(v.node, ns, v.cfg.cache);
    }
    match e.cond
    case Extracted =>
      if use != 0 {
        e.cond := Running;
        updated := true;
      } else if cnts.nodeInUse == 0 {
        cnts := cnts.(nodeNotInUse := 1);
      }
    case Running =>
      if use == 0 {
        e.cond := Extracted;
        updated := true;
      } else {
        cnts := cnts.(nodeInUse := 1, nodeNotInUse := 0, podRunning := cnts.podRunning + use);
      }
    case Deleting =>
      cnts := cnts.(podDeleting := cnts.podDeleting + use, nodeInUse := 1, nodeNotInUse := 0);
      if !v.finalizer {
        cnts := cnts.(nodeCnt := 0);
      }
    case Error => cnts := cnts.(nodeError := cnts.nodeError + 1);
    case UnloadError => cnts := cnts.(nodeError := cnts.nodeError + 1);
    case _ =>
  }

  /** Teardown of one entry of a cache that is being deleted. */
  method ReleaseEntry(api: KubeApi, v: View, entries: map<string, PvcStatus>, ns: string, e: Entry)
    returns (updated: bool, held: bool, err: bool)
    requires WellFormed(api.State()) && ns in entries && e.Value() == entries[ns]
    modifies api, e
    ensures Release(old(api.State()), v, entries, ns) == Dropped(api.State(), e.Value(), updated, held, err)
  {
    updated, held, err := false, false, false;
    if v.owner == Agent {
      var node := if |entries| > 1 then "" else v.node;
      var inUse, deleting;
      updated, inUse, deleting, err := api.ManagePvcStatusDelete(e, Agent, Labels(ns, node));
      held := !err && (inUse || deleting);
    } else {
      var use := api.GetPvcUsedByList("", ns, e.pvcName);
      held := use != 0;
    }
    if held && e.cond != Deleting {
      e.cond := Deleting;
      updated := true;
    }
  }

  // ---------- The namespace loop ----------

  ghost function RunFrom(v: View, s: Loop, k: nat): Loop
    requires k <= |v.cfg.namespaces|
  {
    if v.deleting then ReleaseFrom(v, s, k) else ModifyFrom(v, s, k)
  }

  /** One turn of the loop for a cache that stays. `stop` tells that the status has to be written now. */
  method ModifyTurn(api: KubeApi, v: View, k: nat, entries: map<string, PvcStatus>, cnts: CacheCounts, updated: bool,
                    ghost inUse: bool)
    returns (entries': map<string, PvcStatus>, cnts': CacheCounts, updated': bool, stop: bool)
    requires WellFormed(api.State()) && k < |v.cfg.namespaces|
    modifies api
    ensures var after := Loop(api.State(), entries', cnts', updated', inUse);
            ModifyFrom(v, Loop(old(api.State()), entries, cnts, updated, inUse), k)
            == if stop then after else ModifyFrom(v, after, k + 1)
    ensures stop ==> updated'
    ensures !stop ==> api.State() == old(api.State())
  {
    var ns := v.cfg.namespaces[k];
    entries', cnts', updated', stop := entries, cnts, updated, false;
    var e := new Entry(NewEntry(v.owner));
    if ns in entries {
      e := new Entry(entries[ns]);
    } else {
      updated' := true;
    }
    ModifyIdle(api.State(), v, ns, e.Value());
    var pvcUpdated, pending, err := ManagePvcStatusModify(api, v, ns, e);
    if err {
      return;
    }
    updated' := updated' || pvcUpdated;
    if !updated' {
      cnts', updated' := CountEntry(api, v, ns, e, cnts);
    }
    if updated' {
      entries' := entries[ns := e.Value()];
      stop := true;
    }
  }

  /** One turn of the loop for a cache that is being deleted. */
  method ReleaseTurn(api: KubeApi, v: View, k: nat, entries: map<string, PvcStatus>, cnts: CacheCounts, inUse: bool)
    returns (entries': map<string, PvcStatus>, cnts': CacheCounts, inUse': bool, stop: bool)
    requires WellFormed(api.State()) && k < |v.cfg.namespaces|
    modifies api
    ensures var after := Loop(api.State(), entries', cnts', stop, inUse');
            ReleaseFrom(v, Loop(old(api.State()), entries, cnts, false, inUse), k)
            == if stop then after else ReleaseFrom(v, after, k + 1)
    ensures !stop ==> api.State() == old(api.State())
  {
    var ns := v.cfg.namespaces[k];
    entries', cnts', inUse', stop := entries, cnts, inUse, false;
    if ns !in entries {
      return;
    }
    var e := new Entry(entries[ns]);
    ReleaseIdle(api.State(), v, entries, ns);
    var updated, held, err := ReleaseEntry(api, v, entries, ns, e);
    if err {
      return;
    }
    inUse' := inUse || held;
    if !updated && !held {
      entries' := entries - {ns};
      stop := true;
    } else if updated {
      entries' := entries[ns := e.Value()];
      stop := true;
    } else {
      var counted;
      cnts', counted := CountEntry(api, v, ns, e, cnts);
    }
  }

  method RunNamespaces(api: KubeApi, v: View, listed: Option<map<string, PvcStatus>>)
    returns (entries: map<string, PvcStatus>, cnts: CacheCounts, updated: bool, inUse: bool)
    requires WellFormed(api.State())
    requires v.deleting ==> listed.Some?
    modifies api
    ensures Loop(api.State(), entries, cnts, updated, inUse) == RunLoop(v, StartLoop(old(api.State()), listed))
  {
    entries := if listed.Some? then listed.value else map[];
    cnts, updated, inUse := ZERO_COUNTS.(nodeCnt := 1), listed.None?, false;
    var k, stop := 0, false;
    while k < |v.cfg.namespaces| && !stop
      invariant k <= |v.cfg.namespaces|
      invariant !stop ==> api.State() == old(api.State()) && (v.deleting ==> !updated)
      invariant var s := Loop(api.State(), entries, cnts, updated, inUse);
                RunLoop(v, StartLoop(old(api.State()), listed)) == if stop then s else RunFrom(v, s, k)
      decreases |v.cfg.namespaces| - k, !stop
    {
      if !v.deleting {
        entries, cnts, updated, stop := ModifyTurn(api, v, k, entries, cnts, updated, inUse);
      } else {
        entries, cnts, inUse, stop := ReleaseTurn(api, v, k, entries, cnts, inUse);
        updated := stop;
      }
      k := k + 1;
    }
  }

  // ---------- The pass ----------

  /** Drop the cache from the status, and once that is done drop the per-cache finalizer. */
  method RemoveCacheFromCacheNode(store: NodeStore, inUse: bool, writeOk: bool)
    requires store.node.Some?
    modifies store
    ensures store.node == Some(RemoveCache(old(store.node.value), inUse, writeOk))
  {
    var nd := store.node.value;
    if !inUse && nd.listed.Some? {
      store.UpdateStatus(nd.nodeName, nd.counts, None, writeOk);
    } else {
      store.RemoveFinalizer();
    }
  }

  method ReconcileCache(api: KubeApi, store: NodeStore, v: View, writeOk: bool)
    requires WellFormed(api.State()) && store.node.Some?
    modifies api, store
    ensures store.node.Some?
    ensures PassBody(v, old(api.State()), old(store.node.value), writeOk) == Pass(api.State(), store.node.value)
  {
    var nd := store.node.value;
    var cacheInUse := true;
    if v.owner != Unknown {
      if v.deleting && nd.listed.None? {
        cacheInUse := false;
      } else {
        var entries, cnts, updated, inUse := RunNamespaces(api, v, nd.listed);
        cacheInUse := inUse;
        if updated || cnts != nd.counts {
          var counts := if updated then nd.counts else cnts;
          store.UpdateStatus(nd.nodeName, counts, Some(entries), writeOk);
          return;
        }
      }
    }
    if v.deleting {
      RemoveCacheFromCacheNode(store, cacheInUse, writeOk);
    }
  }

  /** A whole pass of the agent on node `i`: the node object is created and set up first, over several passes. */
  method Reconcile(api: KubeApi, store: NodeStore, cfg: Config, cache: CacheObj, ghost nodes: seq<Option<CacheNode>>, i: nat,
                   uid: string, writeOk: bool)
    requires WellFormed(api.State()) && i < |cfg.nodeNames| && i < |nodes| && nodes[i] == store.node
    modifies api, store
    ensures NodePass(cfg, World(old(api.State()), cache, nodes), i, uid, writeOk) == (api.State(), store.node)
  {
    if cache.gone {
      return;
    }
    if store.node.None? {
      if !cache.deleting {
        store.Create();
      }
      return;
    }
    if store.node.value.nodeName != cfg.nodeNames[i] {
      if !cache.deleting {
        var changed := store.AddFinalizer();
        if !changed {
          store.UpdateStatus(cfg.nodeNames[i], ZERO_COUNTS.(nodeCnt := 1), None, writeOk);
        }
      }
      return;
    }
    var v := View(cfg, cfg.nodeNames[i], cache.owner, cache.deleting, store.node.value.finalizer, cache.entries, uid);
    ReconcileCache(api, store, v, writeOk);
  }
}
