/** The few kinds of change a non-deleting agent pass makes to an entry. */
module AgentMoves {
  import opened ApiTypes
  import opened Kube
  import opened Fleet
  import opened AgentSpec
  import opened AgentFacts

  datatype Move = Stay | Volume | Launch | Follow(job: ObjKey) | Back | Copy

  ghost predicate Moved(c: Cluster, v: View, ns: string, e: PvcStatus, m: Managed, move: Move) {
    var l := Labels(ns, v.node);
    match move
    case Stay => m.c == c && m.e == e
    case Volume =>
      && v.owner == Agent && e.cond == Pending
      && m == EnsureVolume(c, v.cfg.kind, e, l, UniqueName(v.cfg.cache, v.uid), ClaimName(v.cfg, e, v.uid))
      && m.e == e.(pvName := m.e.pvName, pvcName := m.e.pvcName)
      && ((e.pvName == "" && m.e.pvcName == e.pvcName) || (e.pvcName == "" && m.e.pvName == e.pvName))
    case Launch =>
      && v.owner == Agent && e.cond == Pending && e.pvcName != "" && LatestJob(c, l, e.pvcName).None?
      && m.e == e.(cond := Downloading)
      && m.c == AddJob(c, e.pvcName + "-job-download-" + v.uid, l, e.pvcName, Agent)
    case Follow(k) =>
      && v.owner == Agent && e.cond != Pending && !DownloadSet(e.cond)
      && k in c.jobs && k.ns == ns && JobMatches(c.jobs[k], l, e.pvcName)
      && m.c == c && m.e == e.(jobName := k.name, cond := m.e.cond)
      && (m.e.cond == e.cond || m.e.cond == Error || m.e.cond == Downloading
          || (m.e.cond == Extracted && c.jobs[k].succeeded > 0))
    case Back => v.owner == Agent && e.cond == Deleting && m.c == c && m.e == e.(cond := Running)
    case Copy =>
      && v.owner != Agent && ns in v.published && DownloadSet(v.published[ns].cond) && m.c == c
      && m.e == e.(pvName := v.published[ns].pvName, pvcName := v.published[ns].pvcName, cond := v.published[ns].cond)
  }

  lemma JobMove(c: Cluster, v: View, ns: string, e: PvcStatus) returns (move: Move)
    requires !ManageJob(c, v, ns, e).err
    requires e.cond == Pending && v.owner == Agent ==> e.pvcName != ""
    ensures Moved(c, v, ns, e, ManageJob(c, v, ns, e), move)
  {
    var l := Labels(ns, v.node);
    move := Stay;
    if v.owner == Agent {
      if e.cond == Pending {
        move := Launch;
      } else if DownloadSet(e.cond) {
        move := if e.cond == Deleting then Back else Stay;
      } else if LatestJob(c, l, e.pvcName).Some? {
        move := Follow(LatestJob(c, l, e.pvcName).value);
      }
    } else if e.pvcName == "" && ns in v.published && DownloadSet(v.published[ns].cond) {
      move := Copy;
    }
  }

  lemma ModifyMove(c: Cluster, v: View, ns: string, e: PvcStatus) returns (move: Move)
    requires !Modify(c, v, ns, e).err
    ensures Moved(c, v, ns, e, Modify(c, v, ns, e), move)
  {
    var m := ManageVolume(c, v, ns, e);
    if m.updated {
      move := Volume;
    } else {
      move := JobMove(c, v, ns, e);
    }
  }

  /** A claim that is created for an entry with a PV carries the name of the PV, and else a fresh one. */
  lemma ClaimIsNamed(c: Cluster, v: View, ns: string, e: PvcStatus, k: ObjKey)
    requires v.owner == Agent && !Modify(c, v, ns, e).err && k in Modify(c, v, ns, e).c.pvcs && k !in c.pvcs
    ensures k == ObjKey(ns, if e.pvName != "" then e.pvName else v.cfg.cache + "-" + v.uid)
    ensures Modify(c, v, ns, e).c.pvcs[k] == Pvc(Labels(ns, v.node), false) && Modify(c, v, ns, e).e.pvcName == k.name
  {
    var move := ModifyMove(c, v, ns, e);
  }
}
