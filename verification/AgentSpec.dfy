/** One reconcile pass of a node agent, as a function of the cluster state. */
module AgentSpec {
  import opened ApiTypes
  import opened Kube
  import opened Fleet

  /** What a pass reads before it enters the namespace loop. */
  datatype View = View(
    cfg: Config,
    node: string,
    owner: PvcOwner,
    deleting: bool,
    finalizer: bool,
    published: map<string, PvcStatus>,
    uid: string)

  datatype Counted = Counted(cnts: CacheCounts, e: PvcStatus, updated: bool)

  function AddCounts(c: Cluster, v: View, ns: string, e: PvcStatus, cnts: CacheCounts): Counted {
    var base := cnts.(nodeCnt := 1);
    var use := if e.pvcName != "" then UseCount(c.pods, v.node, ns, v.cfg.cache) else 0;
    match e.cond
    case Extracted =>
      if use != 0 then Counted(base, e.(cond := Running), true)
      else if base.nodeInUse == 0 then Counted(base.(nodeNotInUse := 1), e, false)
      else Counted(base, e, false)
    case Running =>
      if use == 0 then Counted(base, e.(cond := Extracted), true)
      else Counted(base.(nodeInUse := 1, nodeNotInUse := 0, podRunning := base.podRunning + use), e, false)
    case Deleting =>
      var counted := base.(podDeleting := base.podDeleting + use, nodeInUse := 1, nodeNotInUse := 0);
      Counted(if v.finalizer then counted else counted.(nodeCnt := 0), e, false)
    case Error => Counted(base.(nodeError := base.nodeError + 1), e, false)
    case UnloadError => Counted(base.(nodeError := base.nodeError + 1), e, false)
    case _ => Counted(base, e, false)
  }

  /** Follow the latest extract Job of an entry that is neither Pending nor downloaded. */
  ghost function FollowJob(c: Cluster, e: PvcStatus, k: ObjKey): Managed
    requires k in c.jobs
  {
    var job := c.jobs[k];
    var named := e.jobName != k.name;
    var e' := e.(jobName := k.name);
    if job.succeeded > 0 then Changed(c, e'.(cond := Extracted))
    else if job.failed > 0 then Managed(c, e'.(cond := Error), named || e.cond != Error, false, false)
    else if job.ready > 0 then
      Managed(c, e'.(cond := Downloading), named || e.cond != Downloading, e.cond == Downloading, false)
    else Managed(c, e', named, true, false)
  }

  ghost function ManageJob(c: Cluster, v: View, ns: string, e: PvcStatus): Managed {
    var l := Labels(ns, v.node);
    if v.owner == Agent then
      if e.cond == Pending then LaunchJob(c, e, l, e.pvcName + "-job-download-" + v.uid, Agent)
      else if DownloadSet(e.cond) then
        if e.cond == Deleting then Changed(c, e.(cond := Running)) else Idle(c, e)
      else
        match LatestJob(c, l, e.pvcName)
        case None => Idle(c, e).(pending := true)
        case Some(k) => FollowJob(c, e, k)
    else if e.pvcName == "" && ns in v.published && DownloadSet(v.published[ns].cond) then
      var p := v.published[ns];
      Changed(c, e.(pvName := p.pvName, pvcName := p.pvcName, cond := p.cond))
    else Idle(c, e)
  }

  function ClaimName(cfg: Config, e: PvcStatus, uid: string): string {
    if e.pvName != "" then e.pvName else UniqueName(cfg.cache, uid)
  }

  ghost function ManageVolume(c: Cluster, v: View, ns: string, e: PvcStatus): Managed {
    if e.cond == Pending && v.owner == Agent then
      EnsureVolume(c, v.cfg.kind, e, Labels(ns, v.node), UniqueName(v.cfg.cache, v.uid), ClaimName(v.cfg, e, v.uid))
    else Idle(c, e)
  }

  ghost function Modify(c: Cluster, v: View, ns: string, e: PvcStatus): Managed {
    var m := ManageVolume(c, v, ns, e);
    if m.err || m.updated then m else ManageJob(c, v, ns, e)
  }

  /** Teardown of one entry. `held` means the entry must stay: still mounted or still terminating. */
  datatype Dropped = Dropped(c: Cluster, e: PvcStatus, updated: bool, held: bool, err: bool)

  /** With more than one entry the node name is left blank in every query of the teardown. */
  function DeleteScope(v: View, entries: map<string, PvcStatus>, ns: string): Labels {
    Labels(ns, if |entries| > 1 then "" else v.node)
  }

  ghost function Release(c: Cluster, v: View, entries: map<string, PvcStatus>, ns: string): Dropped
    requires ns in entries
  {
    var e := entries[ns];
    if v.owner == Agent then
      var r := ManageDelete(c, e, Agent, DeleteScope(v, entries, ns));
      if r.err then Dropped(r.c, r.e, r.updated, false, true)
      else if r.inUse || r.deleting then
        Dropped(r.c, r.e.(cond := Deleting), r.updated || r.e.cond != Deleting, true, false)
      else Dropped(r.c, r.e, r.updated, false, false)
    else if UseCount(c.pods, "", ns, e.pvcName) != 0 then
      Dropped(c, e.(cond := Deleting), e.cond != Deleting, true, false)
    else Dropped(c, e, false, false, false)
  }

  datatype Loop = Loop(c: Cluster, entries: map<string, PvcStatus>, cnts: CacheCounts, updated: bool, inUse: bool)

  ghost function ModifyFrom(v: View, s: Loop, k: nat): Loop
    requires k <= |v.cfg.namespaces|
    decreases |v.cfg.namespaces| - k, 0
  {
    if k == |v.cfg.namespaces| then s
    else
      var ns := v.cfg.namespaces[k];
      var isNew := ns !in s.entries;
      var e := if isNew then NewEntry(v.owner) else s.entries[ns];
      var m := Modify(s.c, v, ns, e);
      var s' := s.(c := m.c, updated := s.updated || isNew);
      if m.err then ModifyFrom(v, s', k + 1)
      else if s'.updated || m.updated then s'.(entries := s.entries[ns := m.e], updated := true)
      else
        var a := AddCounts(m.c, v, ns, m.e, s.cnts);
        if a.updated then s'.(entries := s.entries[ns := a.e], cnts := a.cnts, updated := true)
        else ModifyFrom(v, s'.(cnts := a.cnts), k + 1)
  }

  ghost function ReleaseFrom(v: View, s: Loop, k: nat): Loop
    requires k <= |v.cfg.namespaces|
    decreases |v.cfg.namespaces| - k, 0
  {
    if k == |v.cfg.namespaces| then s
    else
      var ns := v.cfg.namespaces[k];
      if ns !in s.entries then ReleaseFrom(v, s, k + 1)
      else
        var d := Release(s.c, v, s.entries, ns);
        var s' := s.(c := d.c, updated := d.updated, inUse := s.inUse || d.held);
        if d.err then ReleaseFrom(v, s', k + 1)
        else if d.updated then s'.(entries := s.entries[ns := d.e])
        else if !d.held then s'.(entries := s.entries - {ns}, updated := true)
        else
          var a := AddCounts(d.c, v, ns, d.e, s.cnts);
          if a.updated then s'.(entries := s.entries[ns := a.e], cnts := a.cnts, updated := true)
          else ReleaseFrom(v, s'.(cnts := a.cnts), k + 1)
  }

  function NodeView(cfg: Config, w: World, i: nat, uid: string): View
    requires i < |cfg.nodeNames| && i < |w.nodes| && w.nodes[i].Some?
  {
    View(cfg, cfg.nodeNames[i], w.cache.owner, w.cache.deleting, w.nodes[i].value.finalizer, w.cache.entries, uid)
  }

  function StartLoop(c: Cluster, listed: Option<map<string, PvcStatus>>): Loop {
    Loop(c, if listed.Some? then listed.value else map[], ZERO_COUNTS.(nodeCnt := 1), listed.None?, false)
  }

  ghost function RunLoop(v: View, s: Loop): Loop {
    if v.deleting then ReleaseFrom(v, s, 0) else ModifyFrom(v, s, 0)
  }

  /** The node object after the namespace loop, before it is written. */
  function AfterLoop(nd: CacheNode, s: Loop): CacheNode {
    nd.(listed := Some(s.entries), counts := if s.updated then nd.counts else s.cnts)
  }

  /** Last step of a teardown pass: drop the cache from the status, then the per-cache finalizer. */
  function RemoveCache(nd: CacheNode, inUse: bool, writeOk: bool): CacheNode {
    if !inUse && nd.listed.Some? then (if writeOk then nd.(listed := None) else nd)
    else nd.(finalizer := false)
  }

  datatype Pass = Pass(c: Cluster, nd: CacheNode)

  /** The part of a pass after the node object exists and carries its node name. */
  ghost function PassBody(v: View, c: Cluster, nd: CacheNode, writeOk: bool): Pass {
    if v.owner == Unknown then
      Pass(c, if v.deleting then RemoveCache(nd, true, writeOk) else nd)
    else if v.deleting && nd.listed.None? then Pass(c, RemoveCache(nd, false, writeOk))
    else
      var s := RunLoop(v, StartLoop(c, nd.listed));
      var nd' := AfterLoop(nd, s);
      if s.updated || nd'.counts != nd.counts then Pass(s.c, if writeOk then nd' else nd)
      else Pass(s.c, if v.deleting then RemoveCache(nd, s.inUse, writeOk) else nd)
  }

  const NEW_NODE := CacheNode(false, "", ZERO_COUNTS, None)

  ghost function NodePass(cfg: Config, w: World, i: nat, uid: string, writeOk: bool): (Cluster, Option<CacheNode>)
    requires i < |cfg.nodeNames| && i < |w.nodes|
  {
    if w.cache.gone then (w.c, w.nodes[i])
    else if w.nodes[i].None? then (w.c, if w.cache.deleting then None else Some(NEW_NODE))
    else
      var nd := w.nodes[i].value;
      if nd.nodeName != cfg.nodeNames[i] && w.cache.deleting then (w.c, Some(nd))
      else if nd.nodeName != cfg.nodeNames[i] && !nd.finalizer then (w.c, Some(nd.(finalizer := true)))
      else if nd.nodeName != cfg.nodeNames[i] then
        (w.c, Some(if writeOk then CacheNode(nd.finalizer, cfg.nodeNames[i], ZERO_COUNTS.(nodeCnt := 1), None) else nd))
      else
        var p := PassBody(NodeView(cfg, w, i, uid), w.c, nd, writeOk);
        (p.c, Some(p.nd))
  }

  ghost function AgentPass(cfg: Config, w: World, i: nat, uid: string, writeOk: bool): World
    requires i < |cfg.nodeNames| && i < |w.nodes|
  {
    var (c, nd) := NodePass(cfg, w, i, uid, writeOk);
    w.(c := c, nodes := w.nodes[i := nd])
  }
}
