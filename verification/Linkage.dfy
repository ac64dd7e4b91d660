/** Recorded names lead to objects with the right labels, and a live Job always has an entry that leads to its claim. */
module Linkage {
  import opened ApiTypes
  import opened Kube
  import opened Fleet
  import opened Invariants
  import opened ObjectProofs

  /** Every generated name carries the labels it was generated for, so a name is never reused for other labels. */
  ghost predicate NamesFit(cfg: Config, c: Cluster) {
    && (forall n :: n in c.pvs ==> Given(c, n, c.pvs[n].labels))
    && (forall k :: k in c.pvcs && c.pvcs[k].labels.node != "" ==> Given(c, k.name, c.pvcs[k].labels))
    && (forall k :: k in c.jobs ==> Given(c, k.name, Labels(k.ns, c.jobs[k].node)))
    && (forall n :: n in c.log.names ==> |n| > |cfg.cache|)
  }

  ghost predicate Given(c: Cluster, name: string, l: Labels) {
    name != "" ==> name in c.log.names && c.log.names[name] == l
  }

  ghost predicate Linked(c: Cluster, l: Labels, e: PvcStatus) {
    Given(c, e.pvName, l) && Given(c, e.jobName, l) && (l.node != "" ==> Given(c, e.pvcName, l))
  }

  ghost predicate EntriesLinked(c: Cluster, node: string, entries: map<string, PvcStatus>) {
    forall ns :: ns in entries ==> Linked(c, Labels(ns, node), entries[ns])
  }

  /** The entries a node object holds, none when it does not exist or does not list the cache. */
  ghost function Holds(nd: Option<CacheNode>): map<string, PvcStatus> {
    if nd.Some? && nd.value.listed.Some? then nd.value.listed.value else map[]
  }

  ghost predicate NodeLinked(cfg: Config, w: World, i: nat)
    requires i < |w.nodes| == |cfg.nodeNames|
  {
    EntriesLinked(w.c, cfg.nodeNames[i], Holds(w.nodes[i]))
  }

  ghost predicate Links(cfg: Config, w: World) {
    && |w.nodes| == |cfg.nodeNames|
    && NamesFit(cfg, w.c)
    && (w.cache.owner == Agent ==> forall i: nat :: i < |w.nodes| ==> NodeLinked(cfg, w, i))
    && EntriesLinked(w.c, "", w.cache.entries)
  }

  // ---------- Names ----------

  ghost predicate Extends(c: Cluster, d: Cluster) {
    forall n :: n in c.log.names ==> n in d.log.names && d.log.names[n] == c.log.names[n]
  }

  ghost predicate FreshFor(cfg: Config, c: Cluster, name: string) {
    |name| > |cfg.cache| && name !in c.log.names
  }

  lemma FreshUnique(cfg: Config, c: Cluster, uid: string)
    requires FreshUid(c.log, uid)
    ensures FreshFor(cfg, c, UniqueName(cfg.cache, uid))
  {
    assert EndsWith(UniqueName(cfg.cache, uid), uid);
  }

  lemma AddPvFits(cfg: Config, c: Cluster, name: string, l: Labels)
    requires NamesFit(cfg, c) && FreshFor(cfg, c, name)
    ensures NamesFit(cfg, AddPv(c, name, l)) && Extends(c, AddPv(c, name, l))
  {
  }

  lemma AddPvcFits(cfg: Config, c: Cluster, name: string, l: Labels)
    requires NamesFit(cfg, c)
    requires l.node != "" ==> name != "" && (FreshFor(cfg, c, name) || Given(c, name, l))
    ensures NamesFit(cfg, AddPvc(c, name, l)) && Extends(c, AddPvc(c, name, l))
  {
  }

  lemma AddJobFits(cfg: Config, c: Cluster, name: string, l: Labels, pvc: string, who: PvcOwner)
    requires NamesFit(cfg, c) && FreshFor(cfg, c, name)
    ensures NamesFit(cfg, AddJob(c, name, l, pvc, who)) && Extends(c, AddJob(c, name, l, pvc, who))
  {
  }

  lemma EnsurePvcFits(cfg: Config, c: Cluster, e: PvcStatus, l: Labels, pvcName: string)
    requires NamesFit(cfg, c) && Linked(c, l, e)
    requires l.node != "" ==> pvcName != "" && (FreshFor(cfg, c, pvcName) || Given(c, pvcName, l))
    ensures var m := EnsurePvc(c, e, l, pvcName);
            NamesFit(cfg, m.c) && Extends(c, m.c) && (!m.err ==> Linked(m.c, l, m.e))
  {
    if PvcLookup(c, e.pvcName, l).Missing? {
      AddPvcFits(cfg, c, pvcName, l);
    } else if PvcLookup(c, e.pvcName, l).Adopted? {
      assert Only(PvcMatches(c, l)) in PvcMatches(c, l);
    }
  }

  lemma EnsureFits(cfg: Config, c: Cluster, kind: bool, e: PvcStatus, l: Labels, pvName: string, pvcName: string)
    requires NamesFit(cfg, c) && Linked(c, l, e) && FreshFor(cfg, c, pvName)
    requires l.node != "" ==> pvcName != "" && (FreshFor(cfg, c, pvcName) || Given(c, pvcName, l))
    ensures var m := EnsureVolume(c, kind, e, l, pvName, pvcName);
            NamesFit(cfg, m.c) && Extends(c, m.c) && (!m.err ==> Linked(m.c, l, m.e))
  {
    EnsurePvcFits(cfg, c, e, l, pvcName);
    if PvLookup(c, e.pvName, l).Missing? {
      AddPvFits(cfg, c, pvName, l);
    } else if PvLookup(c, e.pvName, l).Adopted? {
      assert Only(PvMatches(c, l)) in PvMatches(c, l);
    }
  }

  lemma ShrinkFits(cfg: Config, c: Cluster, d: Cluster)
    requires NamesFit(cfg, c) && Shrinks(c, d)
    ensures NamesFit(cfg, d) && Extends(c, d)
  {
  }

  lemma LinksExtend(cfg: Config, w: World, d: Cluster)
    requires Links(cfg, w) && NamesFit(cfg, d) && Extends(w.c, d)
    ensures Links(cfg, w.(c := d))
  {
    forall i: nat | i < |w.nodes| && w.cache.owner == Agent ensures NodeLinked(cfg, w.(c := d), i) {
      assert NodeLinked(cfg, w, i);
    }
  }

  // ---------- Live Jobs ----------

  ghost predicate OperatorJobs(cfg: Config, w: World) {
    forall k :: k in w.c.jobs && w.c.jobs[k].node == "" && !w.c.jobs[k].terminating ==>
                  k.ns in w.cache.entries && w.cache.entries[k.ns].pvcName == cfg.cache
  }

  ghost predicate AgentJobHeld(cfg: Config, w: World, k: ObjKey)
    requires k in w.c.jobs
  {
    exists i: nat :: i < |cfg.nodeNames| && cfg.nodeNames[i] == w.c.jobs[k].node && HasEntry(w, i, k.ns)
                     && Entry(w, i, k.ns).pvcName == w.c.jobs[k].pvc
  }

  /** With more than one namespace an agent's teardown blanks the node label, and Jobs can outlive their entries. */
  ghost predicate AgentJobs(cfg: Config, w: World) {
    OneSpace(cfg) ==>
      forall k :: k in w.c.jobs && w.c.jobs[k].node != "" && !w.c.jobs[k].terminating ==> AgentJobHeld(cfg, w, k)
  }

  ghost predicate LiveJobs(cfg: Config, w: World) {
    OperatorJobs(cfg, w) && AgentJobs(cfg, w)
  }

  /** No Job with these labels is live: each is absent or terminating. */
  ghost predicate JobGone(c: Cluster, l: Labels) {
    forall k :: k in c.jobs && k.ns == l.ns && c.jobs[k].node == l.node ==> c.jobs[k].terminating
  }

  /** Any live Job with these labels extracts into the claim the entry records. */
  ghost predicate LeadsToJob(c: Cluster, l: Labels, e: PvcStatus) {
    forall k :: k in c.jobs && k.ns == l.ns && c.jobs[k].node == l.node && !c.jobs[k].terminating ==> c.jobs[k].pvc == e.pvcName
  }

  ghost predicate OneJob(c: Cluster) {
    forall k, j :: k in c.jobs && j in c.jobs && k.ns == j.ns && c.jobs[k].node == c.jobs[j].node ==> k == j
  }

  /** When the owner's attempt gets past the Job, no live Job is left. */
  lemma PastTheJob(cfg: Config, c: Cluster, e: PvcStatus, caller: PvcOwner, l: Labels)
    requires NamesFit(cfg, c) && OneJob(c) && Given(c, e.jobName, l) && LeadsToJob(c, l, e) && caller == e.owner
    requires !DeleteJob(c, e, caller, l).updated
    ensures JobGone(c, l)
  {
    forall k | k in c.jobs && k.ns == l.ns && c.jobs[k].node == l.node ensures c.jobs[k].terminating {
      if e.jobName != "" {
        assert k == ObjKey(l.ns, e.jobName);
      } else {
        assert !c.jobs[k].terminating ==> k in MatchingJobs(c, l, e.pvcName);
      }
    }
  }

  /** An attempt that clears the claim name, or has nothing left to do, leaves no live Job. */
  lemma DeleteLeavesNoJob(cfg: Config, c: Cluster, e: PvcStatus, caller: PvcOwner, l: Labels)
    requires NamesFit(cfg, c) && OneJob(c) && Given(c, e.jobName, l) && LeadsToJob(c, l, e) && caller == e.owner
    ensures var r := ManageDelete(c, e, caller, l);
            r.e.pvcName != e.pvcName || !r.updated ==> JobGone(r.c, l) && JobGone(c, l)
  {
    if !DeleteJob(c, e, caller, l).updated {
      PastTheJob(cfg, c, e, caller, l);
      DeleteMarks(c, e, caller, l);
      MarksStay(c, e, caller, l);
    }
  }

  lemma PvcDeleteKeepsJobs(c: Cluster, e: PvcStatus, caller: PvcOwner, l: Labels)
    ensures DeletePvc(c, e, caller, l).c.jobs == c.jobs
  {
  }

  lemma PvDeleteKeepsJobs(c: Cluster, e: PvcStatus, caller: PvcOwner, l: Labels)
    ensures DeletePv(c, e, caller, l).c.jobs == c.jobs
  {
  }

  lemma MarksStay(c: Cluster, e: PvcStatus, caller: PvcOwner, l: Labels)
    requires !DeleteJob(c, e, caller, l).updated
    ensures ManageDelete(c, e, caller, l).c.jobs == c.jobs
  {
    PvcDeleteKeepsJobs(c, e, caller, l);
    PvDeleteKeepsJobs(c, e, caller, l);
  }
}
