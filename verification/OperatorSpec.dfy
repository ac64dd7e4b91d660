/** One reconcile pass of the operator, as a function of the cluster state. */
module OperatorSpec {
  import opened ApiTypes
  import opened Kube
  import opened Fleet

  // ---------- Counts collected from the node objects ----------

  function Lists(nd: Option<CacheNode>): bool {
    nd.Some? && nd.value.listed.Some?
  }

  /** Sum of the counts of the first `count` nodes that list the cache. */
  function SumCounts(nodes: seq<Option<CacheNode>>, count: nat): CacheCounts
    requires count <= |nodes|
  {
    if count == 0 then ZERO_COUNTS
    else if Lists(nodes[count - 1]) then SumCounts(nodes, count - 1).Plus(nodes[count - 1].value.counts)
    else SumCounts(nodes, count - 1)
  }

  function ConditionCount(cond: Condition): CacheCounts {
    match cond
    case Extracted => ZERO_COUNTS.(nodeNotInUse := 1)
    case Running => ZERO_COUNTS.(nodeInUse := 1)
    case Deleting => ZERO_COUNTS.(podDeleting := 1)
    case Error => ZERO_COUNTS.(nodeError := 1)
    case UnloadError => ZERO_COUNTS.(nodeError := 1)
    case Outdated => ZERO_COUNTS.(podOutdated := 1)
    case _ => ZERO_COUNTS
  }

  /** Number of entries of a namespace by condition, over the first `count` nodes. */
  function SpaceCounts(nodes: seq<Option<CacheNode>>, ns: string, count: nat): CacheCounts
    requires count <= |nodes|
  {
    if count == 0 then ZERO_COUNTS
    else if Lists(nodes[count - 1]) && ns in nodes[count - 1].value.listed.value then
      SpaceCounts(nodes, ns, count - 1).Plus(ConditionCount(nodes[count - 1].value.listed.value[ns].cond))
    else SpaceCounts(nodes, ns, count - 1)
  }

  ghost predicate Reported(nodes: seq<Option<CacheNode>>, ns: string) {
    exists n :: 0 <= n < |nodes| && Lists(nodes[n]) && ns in nodes[n].value.listed.value
  }

  // ---------- One namespace ----------

  datatype View = View(cfg: Config, nodes: seq<Option<CacheNode>>, owner: PvcOwner, counts: CacheCounts, deleting: bool, uid: string)

  /** Move a served entry to the condition its namespace counts ask for. */
  function Summarize(e: PvcStatus, cnts: CacheCounts): (PvcStatus, bool) {
    if cnts.nodeError != 0 then
      if e.cond != Error then (e.(cond := Extracted), true) else (e, false)
    else if cnts.podOutdated != 0 then
      if e.cond != Outdated then (e.(cond := Outdated), true) else (e, false)
    else if cnts.nodeInUse != 0 then
      if e.cond != Running then (e.(cond := Running), true) else (e, false)
    else if cnts.nodeNotInUse != 0 then
      if e.cond != Extracted then (e.(cond := Extracted), true) else (e, false)
    else (e, false)
  }

  predicate HoldOff(v: View) {
    v.owner == Agent && v.counts.nodeInUse == 0 && v.counts.nodeNotInUse == 0
  }

  /** A PVC this pass creates for an Agent-owned cache serves what some node already extracted. */
  ghost function MarkServed(v: View, before: Cluster, m: Managed): Managed {
    if v.owner == Agent && m.c.pvcs != before.pvcs && !m.err then m.(e := m.e.(cond := Extracted)) else m
  }

  ghost function ManageVolume(c: Cluster, v: View, ns: string, e: PvcStatus): Managed {
    var cleared := e.cond == NoNamespace && ns in c.spaces;
    var e' := if cleared then e.(cond := Pending) else e;
    if e'.cond == Pending then
      if ns !in c.spaces then Changed(c, e'.(cond := NoNamespace))
      else if HoldOff(v) then Managed(c, e', cleared, true, false)
      else
        var m := MarkServed(v, c, EnsureVolume(c, v.cfg.kind, e', Labels(ns, ""), UniqueName(v.cfg.cache, v.uid), v.cfg.cache));
        m.(updated := m.updated || cleared)
    else if v.owner == Agent && Reported(v.nodes, ns) then
      var (e'', updated) := Summarize(e', SpaceCounts(v.nodes, ns, |v.nodes|));
      Managed(c, e'', updated || cleared, false, false)
    else Managed(c, e', cleared, false, false)
  }

  ghost function FollowJob(c: Cluster, e: PvcStatus, k: ObjKey): Managed
    requires k in c.jobs
  {
    var job := c.jobs[k];
    var named := e.jobName != k.name;
    var e' := e.(jobName := k.name);
    if job.succeeded > 0 then Changed(c, e'.(cond := Extracted))
    else if job.ready > 0 then Managed(c, e'.(cond := Downloading), named || e.cond != Downloading, false, false)
    else Managed(c, e', named, true, false)
  }

  ghost function ManageJob(c: Cluster, v: View, ns: string, e: PvcStatus): Managed {
    var l := Labels(ns, "");
    if e.cond == Pending then LaunchJob(c, e, l, e.pvcName + v.uid, Operator)
    else if DownloadSet(e.cond) then Idle(c, e)
    else
      match LatestJob(c, l, v.cfg.cache)
      case None => Idle(c, e).(pending := true)
      case Some(k) => FollowJob(c, e, k)
  }

  ghost function Modify(c: Cluster, v: View, ns: string, e: PvcStatus): Managed {
    var m := ManageVolume(c, v, ns, e);
    if m.err || m.updated || m.pending then m
    else if v.owner == Operator then ManageJob(c, v, ns, m.e)
    else Idle(c, m.e)
  }

  // ---------- The namespace loop ----------

  datatype Loop = Loop(c: Cluster, entries: map<string, PvcStatus>, updated: bool, pvcDeleting: bool)

  ghost function LoopFrom(v: View, s: Loop, k: nat): Loop
    requires k <= |v.cfg.namespaces|
    decreases |v.cfg.namespaces| - k
  {
    if k == |v.cfg.namespaces| then s
    else
      var ns := v.cfg.namespaces[k];
      if !v.deleting && !(ns in s.c.spaces && s.c.spaces[ns]) then
        var isNew := ns !in s.entries;
        var e := if isNew then NewEntry(Operator) else s.entries[ns];
        var m := Modify(s.c, v, ns, e);
        var s' := s.(c := m.c, updated := s.updated || isNew);
        if m.err then LoopFrom(v, s', k + 1)
        else if s'.updated || m.updated then s'.(entries := s.entries[ns := m.e], updated := true)
        else LoopFrom(v, s', k + 1)
      else if ns !in s.entries then LoopFrom(v, s, k + 1)
      else
        var r := ManageDelete(s.c, s.entries[ns], Operator, Labels(ns, ""));
        var held := r.inUse || r.deleting;
        var s' := s.(c := r.c, pvcDeleting := r.deleting);
        if r.err then LoopFrom(v, s'.(updated := r.updated), k + 1)
        else if held then
          var updated := r.updated || r.e.cond != Deleting;
          if updated then s'.(entries := s.entries[ns := r.e.(cond := Deleting)], updated := true)
          else LoopFrom(v, s'.(updated := false), k + 1)
        else if r.updated then s'.(entries := s.entries[ns := r.e], updated := true)
        else s'.(entries := s.entries - {ns}, updated := true)
  }

  // ---------- The pass ----------

  /** The cache-wide condition is a summary of the collected counts. */
  function CacheCondition(cond: Option<Condition>, cnts: CacheCounts): Option<Condition> {
    if cnts.nodeError != 0 then Some(Error)
    else if cnts.podOutdated != 0 then Some(Outdated)
    else if cnts.nodeInUse != 0 then Some(Running)
    else if cnts.nodeNotInUse != 0 then Some(Extracted)
    else cond
  }

  function Collected(w: World): CacheCounts {
    SumCounts(w.nodes, |w.nodes|)
  }

  /** The status the pass starts from: owner decided on first sight, counts collected early for the Agent case. */
  function StartStatus(w: World): CacheObj {
    var decided :=
      if w.cache.owner == Unknown then w.cache.(owner := DetermineOwner(w.cache.modes), cond := Some(Pending)) else w.cache;
    decided.(counts := if decided.owner == Agent then Collected(w) else ZERO_COUNTS)
  }

  function PassView(cfg: Config, w: World, st: CacheObj, uid: string): View {
    View(cfg, w.nodes, st.owner, st.counts, w.cache.deleting, uid)
  }

  /** Status at the end of a pass whose namespace loop changed nothing. */
  function Finished(w: World, st: CacheObj): CacheObj {
    var counted := st.(counts := Collected(w));
    counted.(cond := CacheCondition(counted.cond, counted.counts))
  }

  ghost function OperatorPass(cfg: Config, w: World, uid: string, writeOk: bool): World {
    if w.cache.gone then w
    else if !w.cache.deleting && !w.cache.finalizer then w.(cache := w.cache.(finalizer := true))
    else
      var st := StartStatus(w);
      var s := LoopFrom(PassView(cfg, w, st, uid), Loop(w.c, st.entries, false, false), 0);
      if s.updated then
        w.(c := s.c, cache := if writeOk then st.(entries := s.entries) else w.cache)
      else
        var st' := Finished(w, st);
        if st' != w.cache then w.(c := s.c, cache := if writeOk then st' else w.cache)
        else if w.cache.deleting && st'.counts.nodeCnt == 0 && !s.pvcDeleting then
          w.(c := s.c, cache := w.cache.(finalizer := false, gone := true))
        else w.(c := s.c)
  }
}
