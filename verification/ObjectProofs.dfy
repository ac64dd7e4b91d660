/** Creating and deleting objects keeps them unique per label tuple. */
module ObjectProofs {
  import opened ApiTypes
  import opened Kube
  import opened Fleet
  import opened Invariants

  lemma AddPvKeeps(cfg: Config, c: Cluster, name: string, l: Labels)
    requires Unique(c) && Named(cfg, c)
    requires name != "" && name !in c.pvs && PvMatches(c, l) == {}
    ensures Unique(AddPv(c, name, l)) && Named(cfg, AddPv(c, name, l))
  {
    assert forall n :: n in c.pvs && c.pvs[n].labels == l ==> n in PvMatches(c, l);
  }

  lemma AddPvcKeeps(cfg: Config, c: Cluster, name: string, l: Labels)
    requires Unique(c) && Named(cfg, c)
    requires name != "" && ObjKey(l.ns, name) !in c.pvcs && PvcMatches(c, l) == {}
    requires l.node == "" ==> name == cfg.cache
    ensures Unique(AddPvc(c, name, l)) && Named(cfg, AddPvc(c, name, l))
  {
    assert forall k :: k in c.pvcs && c.pvcs[k].labels == l ==> k in PvcMatches(c, l);
  }

  lemma AddJobKeeps(cfg: Config, c: Cluster, name: string, l: Labels, pvc: string, who: PvcOwner)
    requires Unique(c) && Named(cfg, c)
    requires name != "" && name !in c.log.names && pvc != "" && LatestJob(c, l, pvc).None?
    ensures Unique(AddJob(c, name, l, pvc, who)) && Named(cfg, AddJob(c, name, l, pvc, who))
  {
    assert forall k :: k in c.jobs && k.ns == l.ns && JobMatches(c.jobs[k], l, pvc) ==> k in MatchingJobs(c, l, pvc);
  }

  /** Only names and volumes may differ. */
  ghost predicate Grows(c: Cluster, d: Cluster) {
    d.jobs == c.jobs && d.pods == c.pods && d.log == c.log.(names := d.log.names) && c.log.names.Keys <= d.log.names.Keys
  }

  lemma EnsurePvcKeeps(cfg: Config, c: Cluster, e: PvcStatus, l: Labels, pvcName: string)
    requires Unique(c) && Named(cfg, c)
    requires pvcName != "" && (l.node == "" ==> pvcName == cfg.cache)
    ensures var m := EnsurePvc(c, e, l, pvcName);
            Unique(m.c) && Named(cfg, m.c) && Grows(c, m.c)
  {
    if PvcLookup(c, e.pvcName, l).Missing? && ObjKey(l.ns, pvcName) !in c.pvcs {
      AddPvcKeeps(cfg, c, pvcName, l);
    }
  }

  lemma EnsureKeeps(cfg: Config, c: Cluster, kind: bool, e: PvcStatus, l: Labels, pvName: string, pvcName: string)
    requires Unique(c) && Named(cfg, c)
    requires pvName != "" && pvcName != "" && (l.node == "" ==> pvcName == cfg.cache)
    ensures var m := EnsureVolume(c, kind, e, l, pvName, pvcName);
            Unique(m.c) && Named(cfg, m.c) && Grows(c, m.c)
  {
    EnsurePvcKeeps(cfg, c, e, l, pvcName);
    if PvLookup(c, e.pvName, l).Missing? && pvName !in c.pvs {
      AddPvKeeps(cfg, c, pvName, l);
    }
  }

  /** No object appears or changes its labels; names, launchers and pods stay. */
  ghost predicate Shrinks(c: Cluster, d: Cluster) {
    && (forall n :: n in d.pvs ==> n in c.pvs && d.pvs[n].labels == c.pvs[n].labels)
    && (forall k :: k in d.pvcs ==> k in c.pvcs && d.pvcs[k].labels == c.pvcs[k].labels)
    && (forall k :: k in d.jobs ==> k in c.jobs && d.jobs[k].node == c.jobs[k].node && d.jobs[k].pvc == c.jobs[k].pvc)
    && d.log.names == c.log.names && d.log.launchers == c.log.launchers
  }

  lemma ShrinkKeeps(cfg: Config, c: Cluster, d: Cluster)
    requires Unique(c) && Named(cfg, c) && Shrinks(c, d)
    ensures Unique(d) && Named(cfg, d)
  {
  }

  /** A teardown attempt only marks objects as terminating. */
  ghost predicate Marks(c: Cluster, d: Cluster) {
    && d.log == c.log && d.pods == c.pods && d.spaces == c.spaces
    && d.pvs.Keys == c.pvs.Keys
    && (forall n :: n in c.pvs ==> d.pvs[n].labels == c.pvs[n].labels && (c.pvs[n].terminating ==> d.pvs[n].terminating))
    && d.pvcs.Keys == c.pvcs.Keys
    && (forall k :: k in c.pvcs ==> d.pvcs[k].labels == c.pvcs[k].labels && (c.pvcs[k].terminating ==> d.pvcs[k].terminating))
    && d.jobs.Keys == c.jobs.Keys
    && (forall k :: k in c.jobs ==>
          d.jobs[k] == c.jobs[k].(terminating := d.jobs[k].terminating) && (c.jobs[k].terminating ==> d.jobs[k].terminating))
  }

  lemma JobMarks(c: Cluster, k: ObjKey)
    requires k in c.jobs
    ensures Marks(c, c.(jobs := c.jobs[k := c.jobs[k].(terminating := true)]))
  {
  }

  lemma JobDeleteMarks(c: Cluster, e: PvcStatus, caller: PvcOwner, l: Labels)
    ensures Marks(c, DeleteJob(c, e, caller, l).c)
  {
    var d := DeleteJob(c, e, caller, l).c;
    if d != c {
      JobMarks(c, if e.jobName != "" then ObjKey(l.ns, e.jobName) else LatestJob(c, l, e.pvcName).value);
    }
  }

  lemma PvcMarks(c: Cluster, k: ObjKey)
    requires k in c.pvcs
    ensures Marks(c, c.(pvcs := c.pvcs[k := c.pvcs[k].(terminating := true)]))
  {
  }

  lemma PvMarks(c: Cluster, n: string)
    requires n in c.pvs
    ensures Marks(c, c.(pvs := c.pvs[n := c.pvs[n].(terminating := true)]))
  {
  }

  lemma PvcDeleteMarks(c: Cluster, e: PvcStatus, caller: PvcOwner, l: Labels)
    ensures Marks(c, DeletePvc(c, e, caller, l).c)
  {
    var d := DeletePvc(c, e, caller, l).c;
    if d != c {
      var k := if e.pvcName != "" then ObjKey(l.ns, e.pvcName) else Only(PvcMatches(c, l));
      assert d == DeletePvcAt(c, e, caller, l, k).c;
      PvcMarks(c, k);
    }
  }

  lemma PvDeleteMarks(c: Cluster, e: PvcStatus, caller: PvcOwner, l: Labels)
    ensures Marks(c, DeletePv(c, e, caller, l).c)
  {
    var d := DeletePv(c, e, caller, l).c;
    if d != c {
      var n := if e.pvName != "" then e.pvName else Only(PvMatches(c, l));
      assert d == DeletePvAt(c, e, caller, n).c;
      PvMarks(c, n);
    }
  }

  /** Teardown touches only the recorded names of an entry. */
  ghost predicate Renamed(e: PvcStatus, e': PvcStatus) {
    && e' == e.(pvName := e'.pvName, pvcName := e'.pvcName, jobName := e'.jobName)
    && (e'.pvName == e.pvName || e'.pvName == "")
    && (e'.pvcName == e.pvcName || e'.pvcName == "")
    && (e'.jobName == e.jobName || e'.jobName == "")
  }

  lemma PvcDeleteRenames(c: Cluster, e: PvcStatus, caller: PvcOwner, l: Labels)
    ensures Renamed(e, DeletePvc(c, e, caller, l).e)
  {
  }

  lemma PvDeleteRenames(c: Cluster, e: PvcStatus, caller: PvcOwner, l: Labels)
    ensures Renamed(e, DeletePv(c, e, caller, l).e)
  {
  }

  lemma JobDeleteRenames(c: Cluster, e: PvcStatus, caller: PvcOwner, l: Labels)
    ensures Renamed(e, DeleteJob(c, e, caller, l).e)
  {
  }

  lemma DeleteRenames(c: Cluster, e: PvcStatus, caller: PvcOwner, l: Labels)
    ensures Renamed(e, ManageDelete(c, e, caller, l).e)
  {
    JobDeleteRenames(c, e, caller, l);
    PvcDeleteRenames(c, e, caller, l);
    PvDeleteRenames(c, e, caller, l);
  }

  lemma DeleteMarks(c: Cluster, e: PvcStatus, caller: PvcOwner, l: Labels)
    ensures Marks(c, ManageDelete(c, e, caller, l).c)
    ensures Shrinks(c, ManageDelete(c, e, caller, l).c)
  {
    JobDeleteMarks(c, e, caller, l);
    PvcDeleteMarks(c, e, caller, l);
    PvDeleteMarks(c, e, caller, l);
  }

  lemma MarksSuccess(cfg: Config, w: World, w': World)
    requires |w.nodes| == |cfg.nodeNames| == |w'.nodes|
    requires Owners(w) && SuccessLogged(w.c) && Serving(w) && OneJobPerNode(w) && Marks(w.c, w'.c) && w'.cache == w.cache
    ensures Owners(w') && SuccessLogged(w'.c) && Serving(w') && OneJobPerNode(w')
  {
  }

  lemma AddedJobKeeps(w: World, name: string, l: Labels, pvc: string, who: PvcOwner)
    requires Owners(w) && OneJobPerNode(w) && SuccessLogged(w.c)
    requires w.cache.owner == who == (if l.node == "" then Operator else Agent)
    requires ObjKey(l.ns, name) !in w.c.jobs
    requires forall k :: k in w.c.jobs && k.ns == l.ns ==> w.c.jobs[k].node != l.node
    ensures var w' := w.(c := AddJob(w.c, name, l, pvc, who));
            Owners(w') && OneJobPerNode(w') && SuccessLogged(w'.c)
  {
  }

  lemma FreshJobName(log: Log, prefix: string, uid: string)
    requires FreshUid(log, uid)
    ensures prefix + uid != "" && prefix + uid !in log.names
  {
    assert EndsWith(prefix + uid, uid);
  }

  lemma SameNodesBacked(cfg: Config, w: World, w': World, ns: string, job: Job)
    requires JobBacked(cfg, w, ns, job) && w'.nodes == w.nodes && (w.cache.deleting ==> w'.cache.deleting)
    ensures JobBacked(cfg, w', ns, job)
  {
    if job.node != "" {
      var j: nat :| j < |cfg.nodeNames| && cfg.nodeNames[j] == job.node
                    && (!w.cache.deleting ==> HasEntry(w, j, ns) && Entry(w, j, ns).pvcName == job.pvc);
      assert !w'.cache.deleting ==> HasEntry(w', j, ns) && Entry(w', j, ns).pvcName == job.pvc;
    }
  }
}
