/** What holds in every state of every run. */
module Invariants {
  import opened ApiTypes
  import opened Kube
  import opened Fleet
  import AgentSpec
  import OperatorSpec
  import opened Protocol

  // ---------- Objects ----------

  /** At most one PV and one PVC per label tuple, at most one extract Job per namespace, node and claim. */
  ghost predicate Unique(c: Cluster) {
    && (forall n, m :: n in c.pvs && m in c.pvs && c.pvs[n].labels == c.pvs[m].labels ==> n == m)
    && (forall k, j :: k in c.pvcs && j in c.pvcs && c.pvcs[k].labels == c.pvcs[j].labels ==> k == j)
    && (forall k, j ::
          k in c.jobs && j in c.jobs && k.ns == j.ns && c.jobs[k].node == c.jobs[j].node && c.jobs[k].pvc == c.jobs[j].pvc
          ==> k == j)
  }

  ghost predicate Named(cfg: Config, c: Cluster) {
    && (forall n :: n in c.pvs ==> n != "" && n in c.log.names)
    && (forall k :: k in c.pvcs ==>
          k.name != "" && k.ns == c.pvcs[k].labels.ns && (c.pvcs[k].labels.node == "" ==> k.name == cfg.cache))
    && (forall k :: k in c.jobs ==> k.name != "" && k.name in c.log.names && c.jobs[k].pvc != "")
  }

  lemma UniqueLookups(c: Cluster, l: Labels)
    requires Unique(c)
    ensures |PvMatches(c, l)| <= 1 && |PvcMatches(c, l)| <= 1
    ensures forall name :: !PvLookup(c, name, l).Ambiguous? && !PvcLookup(c, name, l).Ambiguous?
  {
    var m := PvMatches(c, l);
    if n :| n in m {
      assert m == {n};
    }
    var s := PvcMatches(c, l);
    if k :| k in s {
      assert s == {k};
    }
  }

  lemma UniquePvcDelete(c: Cluster, e: PvcStatus, caller: PvcOwner, l: Labels)
    requires Unique(c)
    ensures !DeletePvc(c, e, caller, l).err
  {
    UniqueLookups(c, l);
  }

  lemma UniqueDelete(c: Cluster, e: PvcStatus, caller: PvcOwner, l: Labels)
    requires Unique(c)
    ensures !ManageDelete(c, e, caller, l).err
  {
    UniquePvcDelete(c, e, caller, l);
    UniqueLookups(c, l);
  }

  // ---------- Status objects ----------

  ghost predicate EntryShape(cfg: Config, cache: CacheObj, nd: CacheNode, ns: string, e: PvcStatus) {
    ns in cfg.namespaces && e.owner == cache.owner && (!nd.finalizer ==> e.cond == Deleting)
  }

  ghost predicate NodeShape(cfg: Config, cache: CacheObj, name: string, nd: CacheNode) {
    && (nd.nodeName == "" || nd.nodeName == name)
    && (nd.nodeName == "" ==> nd.listed == None && nd.counts == ZERO_COUNTS)
    && (nd.nodeName != "" ==> (nd.counts.nodeCnt == 0 ==> !nd.finalizer) && (!nd.finalizer ==> cache.deleting))
    && nd.counts.nodeCnt <= 1
    && nd.counts.nodeInUse + nd.counts.nodeNotInUse <= 1
    && (nd.listed.Some? ==>
          cache.owner != Unknown && forall ns :: ns in nd.listed.value ==> EntryShape(cfg, cache, nd, ns, nd.listed.value[ns]))
  }

  ghost predicate CacheShape(cfg: Config, cache: CacheObj) {
    && (cache.owner == Unknown ==> cache.entries == map[])
    && (!cache.gone && cache.deleting ==> cache.finalizer)
    && forall ns :: ns in cache.entries ==>
         ns in cfg.namespaces && cache.entries[ns].owner == Operator && cache.entries[ns].pvcName in {"", cfg.cache}
  }

  ghost predicate Shape(cfg: Config, w: World) {
    && ValidConfig(cfg)
    && |w.nodes| == |cfg.nodeNames|
    && CacheShape(cfg, w.cache)
    && forall i :: 0 <= i < |w.nodes| && w.nodes[i].Some? ==> NodeShape(cfg, w.cache, cfg.nodeNames[i], w.nodes[i].value)
  }

  /** The entry a node keeps for a namespace. */
  ghost predicate HasEntry(w: World, i: nat, ns: string) {
    i < |w.nodes| && w.nodes[i].Some? && w.nodes[i].value.listed.Some? && ns in w.nodes[i].value.listed.value
  }

  ghost function Entry(w: World, i: nat, ns: string): PvcStatus
    requires HasEntry(w, i, ns)
  {
    w.nodes[i].value.listed.value[ns]
  }

  // ---------- Jobs ----------

  /** The Jobs of one cache are launched by one side only, the recorded owner. */
  ghost predicate Owners(w: World) {
    && w.c.log.launchers <= {w.cache.owner}
    && Unknown !in w.c.log.launchers
    && (forall l :: l in w.c.log.succeeded ==> (if l.node == "" then Operator else Agent) in w.c.log.launchers)
    && (forall k :: k in w.c.jobs ==> (if w.c.jobs[k].node == "" then Operator else Agent) in w.c.log.launchers)
  }

  ghost predicate JobBacked(cfg: Config, w: World, ns: string, job: Job) {
    if job.node == "" then job.pvc == cfg.cache
    else exists i: nat :: i < |cfg.nodeNames| && cfg.nodeNames[i] == job.node
                          && (!w.cache.deleting ==> HasEntry(w, i, ns) && Entry(w, i, ns).pvcName == job.pvc)
  }

  /** A listed extract Job belongs to a node, and before deletion to the claim name that node has recorded. */
  ghost predicate JobsBacked(cfg: Config, w: World) {
    forall k :: k in w.c.jobs ==> JobBacked(cfg, w, k.ns, w.c.jobs[k])
  }

  /** At most one extract Job per namespace and node, whatever claim it was launched for. */
  ghost predicate OneJobPerNode(w: World) {
    forall k, j :: k in w.c.jobs && j in w.c.jobs && k.ns == j.ns && w.c.jobs[k].node == w.c.jobs[j].node ==> k == j
  }

  // ---------- Success ----------

  ghost predicate SuccessLogged(c: Cluster) {
    forall k :: k in c.jobs && c.jobs[k].succeeded > 0 ==> Labels(k.ns, c.jobs[k].node) in c.log.succeeded
  }

  function JobNode(owner: PvcOwner, name: string): string {
    if owner == Agent then name else ""
  }

  /** An entry that claims an extracted cache is backed by a reported success of its own Job. */
  ghost predicate EntryBacked(w: World, name: string, ns: string, e: PvcStatus) {
    && (e.cond in {Extracted, Running, Outdated} ==> Labels(ns, JobNode(w.cache.owner, name)) in w.c.log.succeeded)
    && (e.cond == Deleting && w.cache.owner == Agent ==> w.cache.deleting)
  }

  ghost predicate AgentSucceeded(c: Cluster) {
    exists l :: l in c.log.succeeded && l.node != ""
  }

  ghost predicate NodeBacked(w: World, name: string, nd: CacheNode) {
    && (nd.listed.Some? ==> forall ns :: ns in nd.listed.value ==> EntryBacked(w, name, ns, nd.listed.value[ns]))
    && (w.cache.owner == Agent && nd.counts.nodeInUse + nd.counts.nodeNotInUse > 0 ==> AgentSucceeded(w.c) || w.cache.deleting)
    && (w.cache.owner == Unknown ==> nd.counts.nodeInUse + nd.counts.nodeNotInUse == 0)
  }

  ghost predicate Success(cfg: Config, w: World)
    requires |w.nodes| == |cfg.nodeNames|
  {
    && SuccessLogged(w.c)
    && (forall i :: 0 <= i < |w.nodes| && w.nodes[i].Some? ==> NodeBacked(w, cfg.nodeNames[i], w.nodes[i].value))
    && (w.cache.owner == Operator ==>
          forall ns :: ns in w.cache.entries && w.cache.entries[ns].cond in {Extracted, Running, Outdated} ==>
                         Labels(ns, "") in w.c.log.succeeded)
  }

  // ---------- Serving ----------

  /** The owner this cache has, or will get at its next operator pass. */
  function WantedOwner(cache: CacheObj): PvcOwner {
    if cache.owner == Unknown then DetermineOwner(cache.modes) else cache.owner
  }

  ghost predicate ServingExists(c: Cluster) {
    (exists k :: k in c.pvcs && c.pvcs[k].labels.node == "") || (exists n :: n in c.pvs && c.pvs[n].labels.node == "")
  }

  /** For an Agent-owned cache, a volume the operator created is backed by a successful extract Job of some node. */
  ghost predicate Serving(w: World) {
    WantedOwner(w.cache) == Agent && ServingExists(w.c) ==> AgentSucceeded(w.c) || w.c.log.edited
  }

  // ---------- All of them ----------

  ghost predicate Inv(cfg: Config, w: World) {
    && Shape(cfg, w)
    && Unique(w.c)
    && Named(cfg, w.c)
    && Owners(w)
    && JobsBacked(cfg, w)
    && OneJobPerNode(w)
    && Success(cfg, w)
    && Serving(w)
  }

  lemma InitInv(cfg: Config, w: World)
    requires Init(cfg, w)
    ensures Inv(cfg, w)
  {
  }
}
