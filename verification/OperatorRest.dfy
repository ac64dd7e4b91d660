/**
 * With the environment frozen the operator settles, too, exactly when no node reports an error for a namespace that it
 * serves or is about to serve.
 */
module OperatorRest {
  import opened ApiTypes
  import opened Kube
  import opened Fleet
  import opened OperatorSpec
  import opened Invariants
  import opened Linkage
  import opened LinkProofs
  import opened Sums
  import opened DeletionMeasure
  import O = OperatorFacts
  import OperatorProofs
  import C = Convergence
  import Settling
  import ObjectProofs
  import T = Teardown
  import D = DeletionRest
  import NodeCounts

  // ---------- Namespaces ----------

  /** The namespace is not terminating. */
  predicate Stays(c: Cluster, ns: string) {
    !(ns in c.spaces && c.spaces[ns])
  }

  /** Waiting for a volume, or for the namespace to be created. */
  predicate Waits(cond: Condition) {
    cond == Pending || cond == NoNamespace
  }

  /** What a pass works on: the cluster, the view and the entries it starts from. */
  ghost predicate Sane(cfg: Config, c: Cluster, v: View, entries: map<string, PvcStatus>) {
    && C.Sound(cfg, c) && OneJob(c) && cfg.cache != "" && v.cfg == cfg && !v.deleting && FreshUid(c.log, v.uid)
    && (v.owner == Agent || v.owner == Operator)
    && (forall ns :: ns in entries ==> SaneEntry(cfg, c, ns, entries[ns]))
  }

  ghost predicate SaneEntry(cfg: Config, c: Cluster, ns: string, e: PvcStatus) {
    && e.owner == Operator && e.pvcName in {"", cfg.cache} && Linked(c, Labels(ns, ""), e) && LeadsToJob(c, Labels(ns, ""), e)
  }

  // ---------- Ranks ----------

  /** No node that lists the cache reports that it has been extracted there. */
  ghost predicate NobodyHasIt(nodes: seq<Option<CacheNode>>) {
    forall n :: 0 <= n < |nodes| && nodes[n].Some? && nodes[n].value.listed.Some? ==>
                  nodes[n].value.counts.nodeInUse == 0 && nodes[n].value.counts.nodeNotInUse == 0
  }

  /** For a cache that the agents own, nothing is served before some node has it. */
  ghost predicate HeldOff(v: View) {
    v.owner == Agent && NobodyHasIt(v.nodes)
  }

  /** How many writes a waiting entry of an open namespace can still need. */
  ghost function WaitRank(c: Cluster, v: View, ns: string, e: PvcStatus): nat {
    if HeldOff(v) then 0
    else if v.cfg.kind && e.pvName == "" then 4
    else if e.pvcName == "" then 3
    else if v.owner == Operator && LatestJob(c, Labels(ns, ""), e.pvcName).None? then 2
    else 0
  }

  /** The condition is not the one that the counts of the namespace call for. */
  predicate OutOfDate(cond: Condition, cnts: CacheCounts) {
    if cnts.nodeError != 0 then cond != Error
    else if cnts.podOutdated != 0 then cond != Outdated
    else if cnts.nodeInUse != 0 then cond != Running
    else cnts.nodeNotInUse != 0 && cond != Extracted
  }

  /** What an entry still has to record of its Job: its success, its name, or that it is ready. */
  predicate Unrecorded(e: PvcStatus, name: string, job: Job) {
    job.succeeded > 0 || e.jobName != name || (job.ready > 0 && e.cond != Downloading)
  }

  /** An entry that is past waiting follows the nodes, or its own Job. */
  ghost function FollowRank(c: Cluster, v: View, ns: string, e: PvcStatus): nat {
    if v.owner == Agent then
      if Reported(v.nodes, ns) && OutOfDate(e.cond, SpaceCounts(v.nodes, ns, |v.nodes|)) then 1 else 0
    else if DownloadSet(e.cond) then 0
    else
      var job := LatestJob(c, Labels(ns, ""), v.cfg.cache);
      if job.Some? && Unrecorded(e, job.value.name, c.jobs[job.value]) then 1 else 0
  }

  ghost function EntryRank(c: Cluster, v: View, ns: string, e: PvcStatus): (r: nat)
    ensures r <= 5
  {
    if !Waits(e.cond) then FollowRank(c, v, ns, e)
    else if ns !in c.spaces then FollowRank(c, v, ns, e.(cond := NoNamespace)) + (if e.cond == Pending then 1 else 0)
    else WaitRank(c, v, ns, e) + (if e.cond == NoNamespace then 1 else 0)
  }

  /** The live objects with these labels. */
  ghost function LiveAt(c: Cluster, l: Labels): nat {
    |LivePvsAt(c, l)| + |LivePvcsAt(c, l)| + |LiveJobsAt(c, l)|
  }

  ghost function LivePvsAt(c: Cluster, l: Labels): set<string> {
    set n | n in c.pvs && !c.pvs[n].terminating && c.pvs[n].labels == l
  }

  ghost function LivePvcsAt(c: Cluster, l: Labels): set<ObjKey> {
    set k | k in c.pvcs && !c.pvcs[k].terminating && c.pvcs[k].labels == l
  }

  ghost function LiveJobsAt(c: Cluster, l: Labels): set<ObjKey> {
    set k | k in c.jobs && !c.jobs[k].terminating && k.ns == l.ns && c.jobs[k].node == l.node
  }

  /** The recorded Job is not yet terminating, or without a record some Job of the entry is live. */
  ghost predicate JobDue(c: Cluster, l: Labels, e: PvcStatus) {
    if e.jobName != "" then !(ObjKey(l.ns, e.jobName) in c.jobs && c.jobs[ObjKey(l.ns, e.jobName)].terminating)
    else exists k :: k in c.jobs && k.ns == l.ns && c.jobs[k].node == l.node && c.jobs[k].pvc == e.pvcName && !c.jobs[k].terminating
  }

  /** The entry is marked, its Job is done with, and its claim is still mounted or vanishing. */
  ghost predicate Lingers(c: Cluster, l: Labels, e: PvcStatus) {
    e.cond == Deleting && !JobDue(c, l, e) && (D.Mounted(c, l, e) || D.Vanishing(c, l, e))
  }

  /** In a terminating namespace: what is left of the entry and of its objects. */
  ghost function TearLeft(c: Cluster, ns: string, e: PvcStatus): nat {
    1 + Names(e) + LiveAt(c, Labels(ns, "")) + (if e.cond != Deleting then 1 else 0)
  }

  ghost function TearRank(c: Cluster, ns: string, e: PvcStatus): nat {
    if Lingers(c, Labels(ns, ""), e) then 0 else TearLeft(c, ns, e)
  }

  ghost function SpaceRank(c: Cluster, v: View, entries: map<string, PvcStatus>, ns: string): nat {
    if Stays(c, ns) then (if ns in entries then EntryRank(c, v, ns, entries[ns]) else 6)
    else if ns in entries then TearRank(c, ns, entries[ns])
    else 0
  }

  // ---------- Trouble ----------

  /** A node reports an error for a namespace of a cache that the agents own. */
  ghost predicate Faulty(v: View, ns: string) {
    v.owner == Agent && Reported(v.nodes, ns) && SpaceCounts(v.nodes, ns, |v.nodes|).nodeError != 0
  }

  /** A waiting entry whose claim will be created. */
  ghost predicate ToBeServed(c: Cluster, v: View, ns: string, e: PvcStatus) {
    !HeldOff(v) && e.pvcName == "" && PvcMatches(c, Labels(ns, "")) == {}
  }

  /** The entry follows the nodes, or will, while a node reports an error and the entry does not. */
  ghost predicate Troubled(c: Cluster, v: View, entries: map<string, PvcStatus>, ns: string) {
    && Stays(c, ns) && Faulty(v, ns)
    && var e := O.EntryOr(entries, ns); if Waits(e.cond) && ns in c.spaces then ToBeServed(c, v, ns, e) else e.cond != Error
  }

  ghost predicate Untroubled(c: Cluster, v: View, entries: map<string, PvcStatus>) {
    forall ns :: ns in v.cfg.namespaces ==> !Troubled(c, v, entries, ns)
  }

  // ---------- One entry of a namespace that stays ----------

  /** What a change for one namespace leaves alone. */
  ghost predicate Elsewhere(c: Cluster, d: Cluster, ns: string) {
    && d.pods == c.pods && d.spaces == c.spaces
    && (forall l: Labels :: l.ns != ns ==> PvcMatches(d, l) == PvcMatches(c, l))
    && (forall l: Labels :: l.ns != ns ==> LiveAt(d, l) == LiveAt(c, l))
    && (forall k: ObjKey :: k.ns != ns ==> (k in c.pvcs <==> k in d.pvcs) && (k in c.pvcs ==> c.pvcs[k] == d.pvcs[k]))
    && forall k: ObjKey :: k.ns != ns ==> (k in c.jobs <==> k in d.jobs) && (k in c.jobs ==> c.jobs[k] == d.jobs[k])
  }

  lemma AddPvElsewhere(c: Cluster, name: string, l: Labels)
    requires name !in c.pvs
    ensures Elsewhere(c, AddPv(c, name, l), l.ns)
  {
    var d := AddPv(c, name, l);
    forall m: Labels | m.ns != l.ns ensures LiveAt(d, m) == LiveAt(c, m) && PvcMatches(d, m) == PvcMatches(c, m) {
      assert LivePvsAt(d, m) == LivePvsAt(c, m) && LivePvcsAt(d, m) == LivePvcsAt(c, m) && LiveJobsAt(d, m) == LiveJobsAt(c, m);
    }
  }

  lemma AddPvcElsewhere(c: Cluster, name: string, l: Labels)
    requires ObjKey(l.ns, name) !in c.pvcs
    ensures Elsewhere(c, AddPvc(c, name, l), l.ns)
  {
    var d := AddPvc(c, name, l);
    forall m: Labels | m.ns != l.ns ensures LiveAt(d, m) == LiveAt(c, m) && PvcMatches(d, m) == PvcMatches(c, m) {
      assert LivePvsAt(d, m) == LivePvsAt(c, m) && LivePvcsAt(d, m) == LivePvcsAt(c, m) && LiveJobsAt(d, m) == LiveJobsAt(c, m);
    }
  }

  lemma AddJobElsewhere(c: Cluster, name: string, l: Labels, pvc: string, who: PvcOwner)
    ensures Elsewhere(c, AddJob(c, name, l, pvc, who), l.ns)
  {
    var d := AddJob(c, name, l, pvc, who);
    forall m: Labels | m.ns != l.ns ensures LiveAt(d, m) == LiveAt(c, m) && PvcMatches(d, m) == PvcMatches(c, m) {
      assert LivePvsAt(d, m) == LivePvsAt(c, m) && LivePvcsAt(d, m) == LivePvcsAt(c, m) && LiveJobsAt(d, m) == LiveJobsAt(c, m);
    }
  }

  /** Ensuring a volume adds at most one object. */
  lemma EnsureAdds(c: Cluster, kind: bool, e: PvcStatus, l: Labels, pvName: string, pvcName: string)
    ensures var d := EnsureVolume(c, kind, e, l, pvName, pvcName).c;
            || d == c
            || (pvName !in c.pvs && d == AddPv(c, pvName, l))
            || (ObjKey(l.ns, pvcName) !in c.pvcs && d == AddPvc(c, pvcName, l))
  {
  }

  lemma EnsureElsewhere(c: Cluster, kind: bool, e: PvcStatus, l: Labels, pvName: string, pvcName: string)
    ensures Elsewhere(c, EnsureVolume(c, kind, e, l, pvName, pvcName).c, l.ns)
  {
    EnsureAdds(c, kind, e, l, pvName, pvcName);
    var d := EnsureVolume(c, kind, e, l, pvName, pvcName).c;
    if d != c {
      if pvName !in c.pvs && d == AddPv(c, pvName, l) {
        AddPvElsewhere(c, pvName, l);
      } else {
        AddPvcElsewhere(c, pvcName, l);
      }
    }
  }

  lemma ModifyElsewhere(c: Cluster, v: View, ns: string, e: PvcStatus)
    requires (v.owner == Agent || v.owner == Operator) && !Modify(c, v, ns, e).err
    ensures Elsewhere(c, Modify(c, v, ns, e).c, ns)
  {
    var move := OperatorProofs.ModifyMove(c, v, ns, e);
    EnsureElsewhere(c, v.cfg.kind, e.(cond := Pending), Labels(ns, ""), UniqueName(v.cfg.cache, v.uid), v.cfg.cache);
    AddJobElsewhere(c, e.pvcName + v.uid, Labels(ns, ""), e.pvcName, Operator);
  }

  // ---------- Progress of one entry ----------

  /** Claims named like the cache in a namespace are the operator's own. */
  lemma CacheNameFree(cfg: Config, c: Cluster, ns: string)
    requires C.Sound(cfg, c) && cfg.cache != "" && ObjKey(ns, cfg.cache) in c.pvcs
    ensures ObjKey(ns, cfg.cache) in PvcMatches(c, Labels(ns, ""))
  {
    var k := ObjKey(ns, cfg.cache);
    assert c.pvcs[k].labels.node != "" ==> Given(c, k.name, c.pvcs[k].labels);
    assert c.pvcs[k].labels == Labels(ns, "");
  }

  ghost function Ensured(c: Cluster, v: View, ns: string, e: PvcStatus): Managed {
    EnsureVolume(c, v.cfg.kind, e.(cond := Pending), Labels(ns, ""), UniqueName(v.cfg.cache, v.uid), v.cfg.cache)
  }

  /** What a volume step does for a waiting entry of an open namespace. */
  lemma EnsuredStep(cfg: Config, c: Cluster, v: View, ns: string, e: PvcStatus)
    requires C.Sound(cfg, c) && cfg.cache != "" && v.cfg == cfg && FreshUid(c.log, v.uid) && Open(c, ns)
    ensures var m := Ensured(c, v, ns, e);
            && !m.err && m.e == PvcStatus(m.e.pvName, m.e.pvcName, e.jobName, e.owner, Pending)
            && (if cfg.kind && e.pvName == "" then m.updated && m.e.pvName != "" && m.e.pvcName == e.pvcName && m.c.pvcs == c.pvcs
                else if e.pvcName == "" then
                  m.updated && m.e.pvcName != "" && m.e.pvName == e.pvName && (m.c.pvcs == c.pvcs <==> PvcMatches(c, Labels(ns, "")) != {})
                else m == Managed(c, e.(cond := Pending), false, false, false))
  {
    var l := Labels(ns, "");
    UniqueLookups(c, l);
    FreshUnique(cfg, c, v.uid);
    if cfg.kind && e.pvName == "" {
      if PvMatches(c, l) != {} {
        assert Only(PvMatches(c, l)) in PvMatches(c, l);
      }
    } else if e.pvcName == "" {
      if PvcMatches(c, l) == {} {
        if ObjKey(ns, cfg.cache) in c.pvcs {
          CacheNameFree(cfg, c, ns);
        }
        assert ObjKey(ns, cfg.cache) in AddPvc(c, cfg.cache, l).pvcs;
      } else {
        assert Only(PvcMatches(c, l)) in PvcMatches(c, l);
      }
    }
  }

  ghost predicate Ready(cfg: Config, c: Cluster, v: View) {
    && C.Sound(cfg, c) && OneJob(c) && cfg.cache != "" && v.cfg == cfg && !v.deleting && FreshUid(c.log, v.uid)
    && (v.owner == Agent || v.owner == Operator) && (HoldOff(v) <==> HeldOff(v))
  }

  /** An entry makes progress when it is updated, and cannot fail unless nothing is left to do for it. */
  ghost predicate Advances(c: Cluster, v: View, ns: string, e: PvcStatus) {
    var m := Modify(c, v, ns, e);
    if m.err then e.pvcName != "" else m.updated ==> EntryRank(m.c, v, ns, m.e) < EntryRank(c, v, ns, e)
  }

  lemma WaitAdvances(cfg: Config, c: Cluster, v: View, ns: string, e: PvcStatus)
    requires Ready(cfg, c, v) && Open(c, ns) && Waits(e.cond) && !Troubled(c, v, map[ns := e], ns)
    requires v.owner == Operator ==> e.pvcName in {"", cfg.cache}
    ensures Advances(c, v, ns, e)
  {
    assert O.EntryOr(map[ns := e], ns) == e;
    if !HoldOff(v) {
      EnsuredStep(cfg, c, v, ns, e);
      if (!cfg.kind || e.pvName != "") && e.pvcName != "" && v.owner == Operator && e.cond == Pending {
        LaunchAdvances(cfg, c, v, ns, e);
      }
    }
  }

  lemma LaunchAdvances(cfg: Config, c: Cluster, v: View, ns: string, e: PvcStatus)
    requires Ready(cfg, c, v) && Open(c, ns) && e.cond == Pending && e.pvcName == cfg.cache && v.owner == Operator && !HoldOff(v)
    requires cfg.kind ==> e.pvName != ""
    ensures var m := ManageJob(c, v, ns, e); !m.err ==> EntryRank(m.c, v, ns, m.e) < EntryRank(c, v, ns, e)
  {
  }

  /** Past waiting, or in a namespace that is missing. */
  ghost predicate Follows(c: Cluster, ns: string, e: PvcStatus) {
    Stays(c, ns) && e.cond != Pending && (e.cond == NoNamespace ==> ns !in c.spaces)
  }

  /** Following the nodes takes one write. */
  lemma SummaryAdvances(cfg: Config, c: Cluster, v: View, ns: string, e: PvcStatus)
    requires Ready(cfg, c, v) && v.owner == Agent && Follows(c, ns, e) && (Faulty(v, ns) ==> e.cond == Error)
    ensures Advances(c, v, ns, e)
  {
    if Reported(v.nodes, ns) {
      O.SummaryFollowsCounts(e, SpaceCounts(v.nodes, ns, |v.nodes|));
    }
  }

  /** What following the Job once leaves needs no second write. */
  lemma FollowedOnce(c: Cluster, e: PvcStatus, k: ObjKey)
    requires k in c.jobs
    ensures var m := FollowJob(c, e, k);
            && !m.err && m.c == c && m.e == e.(jobName := m.e.jobName, cond := m.e.cond)
            && (m.e.cond == e.cond || m.e.cond == Extracted || m.e.cond == Downloading)
            && (DownloadSet(m.e.cond) || !FollowJob(c, m.e, k).updated)
  {
  }

  /** Following the Job takes one write. */
  lemma JobAdvances(cfg: Config, c: Cluster, v: View, ns: string, e: PvcStatus)
    requires Ready(cfg, c, v) && v.owner == Operator && Follows(c, ns, e)
    ensures Advances(c, v, ns, e)
  {
    var job := LatestJob(c, Labels(ns, ""), v.cfg.cache);
    if !DownloadSet(e.cond) && job.Some? {
      FollowedOnce(c, e, job.value);
    }
  }

  lemma FollowAdvances(cfg: Config, c: Cluster, v: View, ns: string, e: PvcStatus)
    requires Ready(cfg, c, v) && Follows(c, ns, e) && !Troubled(c, v, map[ns := e], ns)
    ensures Advances(c, v, ns, e)
  {
    assert O.EntryOr(map[ns := e], ns) == e;
    if v.owner == Agent {
      SummaryAdvances(cfg, c, v, ns, e);
    } else {
      JobAdvances(cfg, c, v, ns, e);
    }
  }

  lemma ModifyAdvances(cfg: Config, c: Cluster, v: View, ns: string, e: PvcStatus)
    requires Ready(cfg, c, v) && Stays(c, ns) && !Troubled(c, v, map[ns := e], ns) && e.pvcName in {"", cfg.cache}
    ensures Advances(c, v, ns, e)
  {
    if Waits(e.cond) && ns in c.spaces {
      WaitAdvances(cfg, c, v, ns, e);
    } else if e.cond != Pending {
      FollowAdvances(cfg, c, v, ns, e);
    }
  }

  /** A waiting entry that will not be served stays waiting, or adopts a claim and stays as it is. */
  lemma StaysUnserved(cfg: Config, c: Cluster, v: View, ns: string, e: PvcStatus)
    requires Ready(cfg, c, v) && Open(c, ns) && v.owner == Agent && Waits(e.cond) && !ToBeServed(c, v, ns, e)
    ensures var m := Modify(c, v, ns, e); m.e.cond == Pending && !ToBeServed(m.c, v, ns, m.e)
  {
    if !HoldOff(v) {
      EnsuredStep(cfg, c, v, ns, e);
      C.SameClaims(c, Modify(c, v, ns, e).c);
    }
  }

  /** What is untroubled stays so. */
  lemma StaysUntroubled(cfg: Config, c: Cluster, v: View, ns: string, e: PvcStatus)
    requires Ready(cfg, c, v) && Stays(c, ns) && !Troubled(c, v, map[ns := e], ns) && !Modify(c, v, ns, e).err
    ensures var m := Modify(c, v, ns, e); !Troubled(m.c, v, map[ns := m.e], ns)
  {
    assert O.EntryOr(map[ns := e], ns) == e;
    var m := Modify(c, v, ns, e);
    assert O.EntryOr(map[ns := m.e], ns) == m.e;
    if Faulty(v, ns) && Waits(e.cond) && ns in c.spaces {
      StaysUnserved(cfg, c, v, ns, e);
      ModifyElsewhere(c, v, ns, e);
    }
  }

  /** An entry that is to be served stays so, or gets served. */
  lemma GetsServed(cfg: Config, c: Cluster, v: View, ns: string, e: PvcStatus)
    requires Ready(cfg, c, v) && Open(c, ns) && v.owner == Agent && Waits(e.cond) && ToBeServed(c, v, ns, e)
    ensures var m := Modify(c, v, ns, e);
            && !m.err && m.updated && m.c.spaces == c.spaces
            && (m.e.cond == Extracted || (m.e.cond == Pending && ToBeServed(m.c, v, ns, m.e)))
  {
    EnsuredStep(cfg, c, v, ns, e);
    C.SameClaims(c, Modify(c, v, ns, e).c);
    ModifyElsewhere(c, v, ns, e);
  }

  /** Where there is trouble every attempt is an update, and the trouble stays. */
  lemma StaysTroubled(cfg: Config, c: Cluster, v: View, ns: string, e: PvcStatus)
    requires Ready(cfg, c, v) && Stays(c, ns) && Troubled(c, v, map[ns := e], ns)
    ensures var m := Modify(c, v, ns, e); !m.err && m.updated && Troubled(m.c, v, map[ns := m.e], ns)
  {
    assert O.EntryOr(map[ns := e], ns) == e;
    var m := Modify(c, v, ns, e);
    assert O.EntryOr(map[ns := m.e], ns) == m.e;
    if Waits(e.cond) && ns in c.spaces {
      GetsServed(cfg, c, v, ns, e);
    }
  }

  // ---------- One entry of a terminating namespace ----------

  lemma {:induction false} SmallerSet<X>(a: set<X>, b: set<X>, x: X)
    requires a <= b && x in b && x !in a
    ensures |a| < |b|
  {
    SubsetSize(a, b - {x});
  }

  ghost predicate MarksOnly(c: Cluster, d: Cluster, l: Labels) {
    && ObjectProofs.Marks(c, d)
    && (forall n :: T.PvMarked(c, d, n) ==> c.pvs[n].labels == l)
    && (forall k :: T.PvcMarked(c, d, k) ==> c.pvcs[k].labels == l)
    && (forall k :: T.JobMarked(c, d, k) ==> Labels(k.ns, c.jobs[k].node) == l)
  }

  lemma AttemptMarksOnly(cfg: Config, c: Cluster, e: PvcStatus, l: Labels)
    requires T.Attempt(cfg, c, e, Operator, l)
    ensures MarksOnly(c, ManageDelete(c, e, Operator, l).c, l)
  {
    var d := ManageDelete(c, e, Operator, l).c;
    ObjectProofs.DeleteMarks(c, e, Operator, l);
    forall n | T.PvMarked(c, d, n) ensures c.pvs[n].labels == l {
      T.PvAttempt(cfg, c, e, Operator, l, n);
    }
    forall k | T.PvcMarked(c, d, k) ensures c.pvcs[k].labels == l {
      T.PvcAttempt(cfg, c, e, Operator, l, k);
    }
    forall k | T.JobMarked(c, d, k) ensures Labels(k.ns, c.jobs[k].node) == l {
      T.JobAttempt(cfg, c, e, Operator, l, k);
    }
  }

  lemma MarksElsewhere(cfg: Config, c: Cluster, d: Cluster, l: Labels)
    requires MarksOnly(c, d, l) && Named(cfg, c)
    ensures Elsewhere(c, d, l.ns)
  {
    forall m: Labels ensures PvcMatches(d, m) == PvcMatches(c, m) {
    }
    forall m: Labels | m.ns != l.ns ensures LiveAt(d, m) == LiveAt(c, m) {
      OtherLive(c, d, l, m);
    }
  }

  lemma OtherLive(c: Cluster, d: Cluster, l: Labels, m: Labels)
    requires MarksOnly(c, d, l) && m != l
    ensures LiveAt(d, m) == LiveAt(c, m)
  {
    forall n ensures n in LivePvsAt(d, m) <==> n in LivePvsAt(c, m) {
      assert T.PvMarked(c, d, n) ==> c.pvs[n].labels == l;
    }
    forall k ensures k in LivePvcsAt(d, m) <==> k in LivePvcsAt(c, m) {
      assert T.PvcMarked(c, d, k) ==> c.pvcs[k].labels == l;
    }
    forall k ensures k in LiveJobsAt(d, m) <==> k in LiveJobsAt(c, m) {
      assert T.JobMarked(c, d, k) ==> Labels(k.ns, c.jobs[k].node) == l;
    }
    assert LivePvsAt(d, m) == LivePvsAt(c, m) && LivePvcsAt(d, m) == LivePvcsAt(c, m) && LiveJobsAt(d, m) == LiveJobsAt(c, m);
  }

  /** Marking uses up what is live under the labels. */
  lemma LessLive(c: Cluster, d: Cluster, l: Labels)
    requires MarksOnly(c, d, l)
    ensures LiveAt(d, l) <= LiveAt(c, l) && (Live(d) < Live(c) ==> LiveAt(d, l) < LiveAt(c, l))
  {
    SubsetSize(LivePvsAt(d, l), LivePvsAt(c, l));
    SubsetSize(LivePvcsAt(d, l), LivePvcsAt(c, l));
    SubsetSize(LiveJobsAt(d, l), LiveJobsAt(c, l));
    if n :| n in LivePvs(c) && n !in LivePvs(d) {
      assert T.PvMarked(c, d, n);
      SmallerSet(LivePvsAt(d, l), LivePvsAt(c, l), n);
    } else if k :| k in LivePvcs(c) && k !in LivePvcs(d) {
      assert T.PvcMarked(c, d, k);
      SmallerSet(LivePvcsAt(d, l), LivePvcsAt(c, l), k);
    } else if k :| k in DeletionMeasure.LiveJobs(c) && k !in DeletionMeasure.LiveJobs(d) {
      assert T.JobMarked(c, d, k);
      SmallerSet(LiveJobsAt(d, l), LiveJobsAt(c, l), k);
    } else {
      assert LivePvs(d) == LivePvs(c) && LivePvcs(d) == LivePvcs(c) && DeletionMeasure.LiveJobs(d) == DeletionMeasure.LiveJobs(c);
    }
  }

  lemma TearAdvances(cfg: Config, c: Cluster, v: View, ns: string, e: PvcStatus)
    requires Ready(cfg, c, v) && SaneEntry(cfg, c, ns, e)
    ensures var r := ManageDelete(c, e, Operator, Labels(ns, ""));
            && !r.err && Elsewhere(c, r.c, ns) && r.c.spaces == c.spaces && r.e.cond == e.cond
            && (r.updated ==> TearLeft(r.c, ns, r.e) < TearLeft(c, ns, e))
            && (!r.updated ==> r.c == c && r.e == e)
  {
    var l := Labels(ns, "");
    UniqueDelete(c, e, Operator, l);
    AttemptMarksOnly(cfg, c, e, l);
    MarksElsewhere(cfg, c, ManageDelete(c, e, Operator, l).c, l);
    LessLive(c, ManageDelete(c, e, Operator, l).c, l);
    AttemptShrinksSupply(c, e, Operator, l);
    ObjectProofs.DeleteRenames(c, e, Operator, l);
  }

  lemma JobStageExactly(c: Cluster, e: PvcStatus, l: Labels)
    requires Unique(c) && e.owner == Operator
    ensures DeleteJob(c, e, Operator, l).updated <==> JobDue(c, l, e)
  {
    if e.jobName == "" {
      assert forall k :: k in c.jobs && k.ns == l.ns && c.jobs[k].node == l.node && c.jobs[k].pvc == e.pvcName
                         <==> k in MatchingJobs(c, l, e.pvcName);
    }
  }

  /** An attempt reports nothing but use or pending deletion exactly when the entry lingers. */
  lemma LingersExactly(c: Cluster, e: PvcStatus, l: Labels)
    requires Unique(c) && e.owner == Operator
    ensures var x := ManageDelete(c, e, Operator, l);
            Lingers(c, l, e) <==> (x.inUse || x.deleting) && !x.updated && e.cond == Deleting
  {
    JobStageExactly(c, e, l);
    if D.Mounted(c, l, e) || D.Vanishing(c, l, e) {
      var k :| D.LeadsToClaim(c, l, e, k);
      D.StageFinds(c, e, Operator, l, k);
      D.OnlyClaim(c, e, l, k);
      D.InUseExactly(c, l.node, l.ns, k.name);
    }
    D.AttemptReports(c, e, Operator, l);
  }

  /** The attempt that deletes a claim clears its name, and the next one reports the pending deletion without a name. */
  lemma NameGoesFirst(c: Cluster, e: PvcStatus, l: Labels, k: ObjKey)
    requires Unique(c) && e.owner == Operator && !JobDue(c, l, e) && e.jobName != "" && e.pvcName != ""
    requires D.LeadsToClaim(c, l, e, k) && c.pvcs[k].labels == l && !c.pvcs[k].terminating && !D.InUse(c, l.node, l.ns, k.name)
    ensures var r := ManageDelete(c, e, Operator, l);
            && r.updated && r.e == e.(pvcName := "") && k in r.c.pvcs && r.c.pvcs[k].terminating
            && var next := ManageDelete(r.c, r.e, Operator, l); !next.updated && next.deleting && next.e == r.e
  {
    var d, e' := c.(pvcs := c.pvcs[k := c.pvcs[k].(terminating := true)]), e.(pvcName := "");
    JobStageExactly(c, e, l);
    D.StageFinds(c, e, Operator, l, k);
    D.InUseExactly(c, l.node, l.ns, k.name);
    assert ManageDelete(c, e, Operator, l) == Removal(d, e', true, false, false, false);
    NextReports(d, e', l, k);
  }

  lemma NextReports(d: Cluster, e: PvcStatus, l: Labels, k: ObjKey)
    requires Unique(d) && e.owner == Operator && !JobDue(d, l, e) && e.pvcName == ""
    requires k in d.pvcs && d.pvcs[k].labels == l && d.pvcs[k].terminating && !D.InUse(d, l.node, l.ns, k.name)
    ensures var r := ManageDelete(d, e, Operator, l); !r.updated && r.deleting && r.e == e
  {
    JobStageExactly(d, e, l);
    assert D.LeadsToClaim(d, l, e, k);
    D.StageFinds(d, e, Operator, l, k);
    D.InUseExactly(d, l.node, l.ns, k.name);
  }

  // ---------- The namespace loop ----------

  ghost predicate SaneEntries(cfg: Config, c: Cluster, entries: map<string, PvcStatus>) {
    forall ns :: ns in entries ==> SaneEntry(cfg, c, ns, entries[ns])
  }

  /** One turn of the loop that asks for a write, for a namespace that stays. */
  ghost predicate Touched(v: View, s: Loop, r: Loop, ns: string) {
    && ns in v.cfg.namespaces && Stays(s.c, ns)
    && var m := Modify(s.c, v, ns, O.EntryOr(s.entries, ns));
       !m.err && (ns !in s.entries || m.updated) && r.c == m.c && r.entries == s.entries[ns := m.e]
  }

  /** One turn of the loop that asks for a write, for a terminating namespace. */
  ghost predicate Torn(v: View, s: Loop, r: Loop, ns: string) {
    && ns in v.cfg.namespaces && !Stays(s.c, ns) && ns in s.entries
    && var x := ManageDelete(s.c, s.entries[ns], Operator, Labels(ns, ""));
       r.c == x.c &&
       if x.inUse || x.deleting then
         (x.updated || x.e.cond != Deleting) && r.entries == s.entries[ns := x.e.(cond := Deleting)]
       else if x.updated then r.entries == s.entries[ns := x.e]
       else r.entries == s.entries - {ns}
  }

  /** The loop has nothing to do for this namespace. */
  ghost predicate Quiet(v: View, c: Cluster, entries: map<string, PvcStatus>, ns: string) {
    if Stays(c, ns) then
      ns in entries && var m := Modify(c, v, ns, entries[ns]); m.err || !m.updated
    else
      ns in entries ==>
        var x := ManageDelete(c, entries[ns], Operator, Labels(ns, ""));
        (x.inUse || x.deleting) && !x.updated && entries[ns].cond == Deleting
  }

  /** A new entry never fails. */
  lemma NewEntryFine(cfg: Config, c: Cluster, v: View, ns: string)
    requires Ready(cfg, c, v) && Stays(c, ns)
    ensures !Modify(c, v, ns, NewEntry(Operator)).err
  {
    if ns in c.spaces && !HoldOff(v) {
      EnsuredStep(cfg, c, v, ns, NewEntry(Operator));
    }
  }

  lemma StayTurn(cfg: Config, v: View, s: Loop, k: nat)
    requires Ready(cfg, s.c, v) && k < |cfg.namespaces| && !s.updated && Stays(s.c, cfg.namespaces[k])
    ensures var ns := cfg.namespaces[k];
            var r := LoopFrom(v, s, k);
            if Quiet(v, s.c, s.entries, ns) then r == LoopFrom(v, s, k + 1) else r.updated && Touched(v, s, r, ns)
  {
    var ns := cfg.namespaces[k];
    O.ModifyIdle(s.c, v, ns, O.EntryOr(s.entries, ns));
    if ns !in s.entries {
      NewEntryFine(cfg, s.c, v, ns);
    } else {
      assert s.(c := s.c, updated := false) == s;
    }
  }

  lemma TearTurn(cfg: Config, v: View, s: Loop, k: nat) returns (next: Loop)
    requires Ready(cfg, s.c, v) && SaneEntries(cfg, s.c, s.entries) && k < |cfg.namespaces| && !s.updated
    requires !Stays(s.c, cfg.namespaces[k])
    ensures var ns := cfg.namespaces[k];
            var r := LoopFrom(v, s, k);
            if Quiet(v, s.c, s.entries, ns) then O.Same(s, next) && !next.updated && r == LoopFrom(v, next, k + 1)
            else r.updated && Torn(v, s, r, ns)
  {
    var ns := cfg.namespaces[k];
    next := s;
    if ns in s.entries {
      TearAdvances(cfg, s.c, v, ns, s.entries[ns]);
      next := s.(pvcDeleting := ManageDelete(s.c, s.entries[ns], Operator, Labels(ns, "")).deleting);
    }
  }

  /** One turn: the loop goes on as it was, or it stops with a write. */
  lemma LoopTurn(cfg: Config, v: View, s: Loop, k: nat) returns (next: Loop)
    requires Ready(cfg, s.c, v) && SaneEntries(cfg, s.c, s.entries) && k < |cfg.namespaces| && !s.updated
    ensures var ns := cfg.namespaces[k];
            var r := LoopFrom(v, s, k);
            if Quiet(v, s.c, s.entries, ns) then O.Same(s, next) && !next.updated && r == LoopFrom(v, next, k + 1)
            else r.updated && (Touched(v, s, r, ns) || Torn(v, s, r, ns))
  {
    next := s;
    if Stays(s.c, cfg.namespaces[k]) {
      StayTurn(cfg, v, s, k);
    } else {
      next := TearTurn(cfg, v, s, k);
    }
  }

  ghost predicate AllQuiet(v: View, c: Cluster, entries: map<string, PvcStatus>, k: nat) {
    forall j :: k <= j < |v.cfg.namespaces| ==> Quiet(v, c, entries, v.cfg.namespaces[j])
  }

  lemma QuietSplits(v: View, c: Cluster, entries: map<string, PvcStatus>, k: nat)
    requires k < |v.cfg.namespaces|
    ensures AllQuiet(v, c, entries, k) <==> Quiet(v, c, entries, v.cfg.namespaces[k]) && AllQuiet(v, c, entries, k + 1)
  {
  }

  /** The loop stopped with a write for this namespace. */
  ghost predicate Stopped(v: View, s: Loop, r: Loop, ns: string) {
    r.updated && (Touched(v, s, r, ns) || Torn(v, s, r, ns))
  }

  lemma SameStop(v: View, s: Loop, next: Loop, r: Loop, ns: string)
    requires O.Same(s, next) && Stopped(v, next, r, ns)
    ensures Stopped(v, s, r, ns)
  {
  }

  lemma {:induction false} OpLoop(cfg: Config, v: View, s: Loop, k: nat) returns (ns: string)
    requires Ready(cfg, s.c, v) && SaneEntries(cfg, s.c, s.entries) && k <= |cfg.namespaces| && !s.updated
    ensures var r := LoopFrom(v, s, k);
            if AllQuiet(v, s.c, s.entries, k) then O.Same(s, r) && !r.updated else Stopped(v, s, r, ns)
    decreases |cfg.namespaces| - k
  {
    ns := "";
    if k < |cfg.namespaces| {
      ns := cfg.namespaces[k];
      QuietSplits(v, s.c, s.entries, k);
      var next := LoopTurn(cfg, v, s, k);
      if Quiet(v, s.c, s.entries, ns) {
        ns := OpLoop(cfg, v, next, k + 1);
        if !AllQuiet(v, s.c, s.entries, k + 1) {
          SameStop(v, s, next, LoopFrom(v, next, k + 1), ns);
        }
      }
    }
  }

  // ---------- Ranks go down ----------

  ghost predicate Progress(v: View, s: Loop, r: Loop, ns: string) {
    && ns in v.cfg.namespaces && Elsewhere(s.c, r.c, ns)
    && (forall n :: n != ns ==> (n in s.entries <==> n in r.entries) && (n in s.entries ==> r.entries[n] == s.entries[n]))
    && SpaceRank(r.c, v, r.entries, ns) < SpaceRank(s.c, v, s.entries, ns)
  }

  lemma TouchedProgress(cfg: Config, v: View, s: Loop, r: Loop, ns: string)
    requires Ready(cfg, s.c, v) && SaneEntries(cfg, s.c, s.entries) && Touched(v, s, r, ns) && !Troubled(s.c, v, s.entries, ns)
    ensures Progress(v, s, r, ns)
  {
    ModifyElsewhere(s.c, v, ns, O.EntryOr(s.entries, ns));
    TouchedRank(cfg, v, s, r, ns);
  }

  lemma TouchedRank(cfg: Config, v: View, s: Loop, r: Loop, ns: string)
    requires Ready(cfg, s.c, v) && SaneEntries(cfg, s.c, s.entries) && Touched(v, s, r, ns) && !Troubled(s.c, v, s.entries, ns)
    requires r.c.spaces == s.c.spaces
    ensures SpaceRank(r.c, v, r.entries, ns) < SpaceRank(s.c, v, s.entries, ns)
  {
    var e := O.EntryOr(s.entries, ns);
    assert O.EntryOr(map[ns := e], ns) == e;
    ModifyAdvances(cfg, s.c, v, ns, e);
  }

  lemma TouchedUntroubled(cfg: Config, v: View, s: Loop, r: Loop, ns: string)
    requires Ready(cfg, s.c, v) && Touched(v, s, r, ns) && !Troubled(s.c, v, s.entries, ns)
    ensures !Troubled(r.c, v, r.entries, ns)
  {
    var e := O.EntryOr(s.entries, ns);
    assert O.EntryOr(map[ns := e], ns) == e && O.EntryOr(r.entries, ns) == O.EntryOr(map[ns := r.entries[ns]], ns);
    StaysUntroubled(cfg, s.c, v, ns, e);
  }

  lemma TornProgress(cfg: Config, v: View, s: Loop, r: Loop, ns: string)
    requires Ready(cfg, s.c, v) && SaneEntries(cfg, s.c, s.entries) && Torn(v, s, r, ns)
    ensures Progress(v, s, r, ns) && !Stays(r.c, ns)
  {
    TearAdvances(cfg, s.c, v, ns, s.entries[ns]);
    TornRank(cfg, v, s, r, ns);
  }

  lemma TornRank(cfg: Config, v: View, s: Loop, r: Loop, ns: string)
    requires Ready(cfg, s.c, v) && SaneEntries(cfg, s.c, s.entries) && Torn(v, s, r, ns) && r.c.spaces == s.c.spaces
    ensures SpaceRank(r.c, v, r.entries, ns) < SpaceRank(s.c, v, s.entries, ns)
  {
    TearAdvances(cfg, s.c, v, ns, s.entries[ns]);
    LingersExactly(s.c, s.entries[ns], Labels(ns, ""));
    assert ns in r.entries ==> TearLeft(r.c, ns, r.entries[ns]) < TearLeft(s.c, ns, s.entries[ns]);
  }

  lemma SameFollowRank(c: Cluster, d: Cluster, v: View, ns: string, n: string, e: PvcStatus)
    requires Unique(c) && Unique(d) && Elsewhere(c, d, ns) && n != ns
    ensures FollowRank(d, v, n, e) == FollowRank(c, v, n, e)
  {
    C.SameLatest(c, d, Labels(n, ""), v.cfg.cache);
  }

  lemma SameEntryRank(c: Cluster, d: Cluster, v: View, ns: string, n: string, e: PvcStatus)
    requires Unique(c) && Unique(d) && Elsewhere(c, d, ns) && n != ns
    ensures EntryRank(d, v, n, e) == EntryRank(c, v, n, e)
  {
    C.SameLatest(c, d, Labels(n, ""), e.pvcName);
    SameFollowRank(c, d, v, ns, n, e);
    SameFollowRank(c, d, v, ns, n, e.(cond := NoNamespace));
  }

  /** A claim of another namespace, as it was. */
  lemma SameClaim(cfg: Config, c: Cluster, d: Cluster, ns: string, n: string, e: PvcStatus, k: ObjKey)
    requires Elsewhere(c, d, ns) && n != ns && Named(cfg, c)
    ensures D.LeadsToClaim(d, Labels(n, ""), e, k) <==> D.LeadsToClaim(c, Labels(n, ""), e, k)
    ensures D.LeadsToClaim(c, Labels(n, ""), e, k) ==> k in d.pvcs && d.pvcs[k] == c.pvcs[k]
  {
    assert k in PvcMatches(d, Labels(n, "")) <==> k in PvcMatches(c, Labels(n, ""));
  }

  lemma SameJobDue(c: Cluster, d: Cluster, ns: string, n: string, e: PvcStatus)
    requires Elsewhere(c, d, ns) && n != ns
    ensures JobDue(d, Labels(n, ""), e) <==> JobDue(c, Labels(n, ""), e)
  {
  }

  lemma SameHold(cfg: Config, c: Cluster, d: Cluster, ns: string, n: string, e: PvcStatus)
    requires Elsewhere(c, d, ns) && n != ns && Named(cfg, c)
    ensures D.Mounted(d, Labels(n, ""), e) <==> D.Mounted(c, Labels(n, ""), e)
    ensures D.Vanishing(d, Labels(n, ""), e) <==> D.Vanishing(c, Labels(n, ""), e)
  {
    var l := Labels(n, "");
    forall k ensures D.LeadsToClaim(d, l, e, k) <==> D.LeadsToClaim(c, l, e, k)
      ensures D.LeadsToClaim(c, l, e, k) ==> k in d.pvcs && d.pvcs[k] == c.pvcs[k]
    {
      SameClaim(cfg, c, d, ns, n, e, k);
    }
  }

  lemma SameTearRank(cfg: Config, c: Cluster, d: Cluster, ns: string, n: string, e: PvcStatus)
    requires Elsewhere(c, d, ns) && n != ns && Named(cfg, c)
    ensures TearRank(d, n, e) == TearRank(c, n, e)
  {
    SameHold(cfg, c, d, ns, n, e);
    SameJobDue(c, d, ns, n, e);
  }

  /** Namespaces that are not at hand keep their rank. */
  lemma OthersRank(v: View, s: Loop, r: Loop, ns: string, n: string)
    requires Unique(s.c) && Named(v.cfg, s.c) && Unique(r.c) && Elsewhere(s.c, r.c, ns) && n != ns
    requires (n in s.entries <==> n in r.entries) && (n in s.entries ==> r.entries[n] == s.entries[n])
    ensures SpaceRank(r.c, v, r.entries, n) == SpaceRank(s.c, v, s.entries, n)
  {
    if n in s.entries {
      SameEntryRank(s.c, r.c, v, ns, n, s.entries[n]);
      SameTearRank(v.cfg, s.c, r.c, ns, n, s.entries[n]);
    }
  }

  /** Namespaces that are not at hand keep their trouble. */
  lemma OthersTrouble(v: View, s: Loop, r: Loop, ns: string, n: string)
    requires Elsewhere(s.c, r.c, ns) && n != ns
    requires (n in s.entries <==> n in r.entries) && (n in s.entries ==> r.entries[n] == s.entries[n])
    ensures Troubled(r.c, v, r.entries, n) <==> Troubled(s.c, v, s.entries, n)
  {
  }

  ghost function RankSum(c: Cluster, v: View, entries: map<string, PvcStatus>): nat {
    SumOver(ns => SpaceRank(c, v, entries, ns), v.cfg.namespaces)
  }

  lemma RankSumDrops(v: View, s: Loop, r: Loop, ns: string)
    requires Progress(v, s, r, ns) && Unique(s.c) && Named(v.cfg, s.c) && Unique(r.c)
    ensures RankSum(r.c, v, r.entries) < RankSum(s.c, v, s.entries)
  {
    var before := n => SpaceRank(s.c, v, s.entries, n);
    var after := n => SpaceRank(r.c, v, r.entries, n);
    forall n | n in v.cfg.namespaces ensures after(n) <= before(n) {
      if n != ns {
        OthersRank(v, s, r, ns, n);
      }
    }
    SumStrictlyBelow(after, before, v.cfg.namespaces, ns);
  }

  /** An untroubled loop brings one namespace forward or does nothing, and stays untroubled. */
  lemma LoopAdvances(cfg: Config, v: View, s: Loop)
    requires Ready(cfg, s.c, v) && SaneEntries(cfg, s.c, s.entries) && !s.updated && Untroubled(s.c, v, s.entries)
    requires Unique(LoopFrom(v, s, 0).c)
    ensures var r := LoopFrom(v, s, 0);
            && (if r.updated then RankSum(r.c, v, r.entries) < RankSum(s.c, v, s.entries) else O.Same(s, r))
            && Untroubled(r.c, v, r.entries) && r.c.spaces == s.c.spaces
  {
    var ns := OpLoop(cfg, v, s, 0);
    var r := LoopFrom(v, s, 0);
    if r.updated {
      if Touched(v, s, r, ns) {
        TouchedProgress(cfg, v, s, r, ns);
        TouchedUntroubled(cfg, v, s, r, ns);
      } else {
        TornProgress(cfg, v, s, r, ns);
      }
      RankSumDrops(v, s, r, ns);
      forall n | n in v.cfg.namespaces ensures !Troubled(r.c, v, r.entries, n) {
        if n != ns {
          OthersTrouble(v, s, r, ns, n);
        }
      }
    }
  }

  /** A troubled namespace makes every loop ask for a write, and its trouble stays. */
  lemma LoopTroubled(cfg: Config, v: View, s: Loop, n: string)
    requires Ready(cfg, s.c, v) && SaneEntries(cfg, s.c, s.entries) && !s.updated
    requires n in cfg.namespaces && Troubled(s.c, v, s.entries, n)
    requires Unique(LoopFrom(v, s, 0).c)
    ensures var r := LoopFrom(v, s, 0); r.updated && Troubled(r.c, v, r.entries, n)
  {
    var j :| 0 <= j < |cfg.namespaces| && cfg.namespaces[j] == n;
    TroubleIsLoud(cfg, v, s, n);
    assert !Quiet(v, s.c, s.entries, cfg.namespaces[j]);
    var ns := OpLoop(cfg, v, s, 0);
    var r := LoopFrom(v, s, 0);
    if Torn(v, s, r, ns) {
      TornProgress(cfg, v, s, r, ns);
      OthersTrouble(v, s, r, ns, n);
    } else if ns == n {
      TroubleRemains(cfg, v, s, r, n);
    } else {
      ModifyElsewhere(s.c, v, ns, O.EntryOr(s.entries, ns));
      OthersTrouble(v, s, r, ns, n);
    }
  }

  lemma TroubleIsLoud(cfg: Config, v: View, s: Loop, n: string)
    requires Ready(cfg, s.c, v) && Troubled(s.c, v, s.entries, n)
    ensures !Quiet(v, s.c, s.entries, n)
  {
    var e := O.EntryOr(s.entries, n);
    assert O.EntryOr(map[n := e], n) == e;
    StaysTroubled(cfg, s.c, v, n, e);
  }

  lemma TroubleRemains(cfg: Config, v: View, s: Loop, r: Loop, n: string)
    requires Ready(cfg, s.c, v) && Troubled(s.c, v, s.entries, n) && Touched(v, s, r, n)
    ensures Troubled(r.c, v, r.entries, n)
  {
    var e := O.EntryOr(s.entries, n);
    assert O.EntryOr(map[n := e], n) == e;
    StaysTroubled(cfg, s.c, v, n, e);
    assert O.EntryOr(r.entries, n) == O.EntryOr(map[n := r.entries[n]], n);
  }

  // ---------- One pass ----------

  ghost predicate Calm(cfg: Config, w: World) {
    Good(cfg, w) && !w.cache.gone && !w.cache.deleting
  }

  ghost function ViewOf(cfg: Config, w: World, uid: string): View {
    PassView(cfg, w, StartStatus(w), uid)
  }

  ghost function LoopOf(cfg: Config, w: World, uid: string): Loop {
    LoopFrom(ViewOf(cfg, w, uid), Loop(w.c, w.cache.entries, false, false), 0)
  }

  /** No namespace is served, or about to be, while a node reports an error for it. */
  ghost predicate Peaceful(cfg: Config, w: World) {
    Untroubled(w.c, ViewOf(cfg, w, ""), w.cache.entries)
  }

  /** The pass writes the finalizer or the status. */
  ghost predicate Writes(cfg: Config, w: World, uid: string) {
    !w.cache.finalizer || LoopOf(cfg, w, uid).updated || Finished(w, StartStatus(w)) != w.cache
  }

  /** Ending a pass would leave the status as it is. */
  ghost predicate StatusKept(w: World) {
    Finished(w, StartStatus(w)) == w.cache
  }

  /** The condition is the most severe one that the counts call for, and any if they call for none. */
  predicate ConditionRight(cond: Option<Condition>, cnts: CacheCounts) {
    if cnts.nodeError != 0 then cond == Some(Error)
    else if cnts.podOutdated != 0 then cond == Some(Outdated)
    else if cnts.nodeInUse != 0 then cond == Some(Running)
    else cnts.nodeNotInUse != 0 ==> cond == Some(Extracted)
  }

  /** The owner is known, the counts are the sums over the nodes that list the cache, and the condition fits them. */
  ghost predicate StatusRight(w: World) {
    w.cache.owner != Unknown && NodeCounts.SumsNodes(w.nodes, w.cache.counts) && ConditionRight(w.cache.cond, w.cache.counts)
  }

  lemma SumsAreUnique(nodes: seq<Option<CacheNode>>, a: CacheCounts, b: CacheCounts)
    requires NodeCounts.SumsNodes(nodes, a) && NodeCounts.SumsNodes(nodes, b)
    ensures a == b
  {
  }

  lemma StatusExactly(w: World)
    ensures StatusKept(w) <==> StatusRight(w)
  {
    NodeCounts.SumCountsExactly(w.nodes);
    if NodeCounts.SumsNodes(w.nodes, w.cache.counts) {
      SumsAreUnique(w.nodes, w.cache.counts, Collected(w));
    }
  }

  /** How far the cache is from rest. */
  ghost function Distance(cfg: Config, w: World): nat {
    2 * RankSum(w.c, ViewOf(cfg, w, ""), w.cache.entries) + (if StatusRight(w) then 0 else 1) + (if w.cache.finalizer then 0 else 1)
  }

  lemma {:induction false} NobodyCounted(nodes: seq<Option<CacheNode>>, count: nat)
    requires count <= |nodes|
    ensures SumCounts(nodes, count).nodeInUse == 0 && SumCounts(nodes, count).nodeNotInUse == 0 <==> NobodyHasIt(nodes[..count])
  {
    if count > 0 {
      NobodyCounted(nodes, count - 1);
      assert nodes[..count] == nodes[..count - 1] + [nodes[count - 1]];
      NobodyNext(nodes[..count - 1], nodes[count - 1]);
    }
  }

  lemma NobodyNext(nodes: seq<Option<CacheNode>>, nd: Option<CacheNode>)
    ensures NobodyHasIt(nodes + [nd])
            <==> NobodyHasIt(nodes)
                 && (nd.Some? && nd.value.listed.Some? ==> nd.value.counts.nodeInUse == 0 && nd.value.counts.nodeNotInUse == 0)
  {
    var all := nodes + [nd];
    assert all[|nodes|] == nd;
    assert forall n :: 0 <= n < |nodes| ==> all[n] == nodes[n];
  }

  lemma HoldOffExactly(cfg: Config, w: World, uid: string)
    ensures HoldOff(ViewOf(cfg, w, uid)) <==> HeldOff(ViewOf(cfg, w, uid))
  {
    NobodyCounted(w.nodes, |w.nodes|);
    assert w.nodes[..|w.nodes|] == w.nodes;
  }

  lemma CalmReady(cfg: Config, w: World, uid: string)
    requires Calm(cfg, w) && FreshUid(w.c.log, uid)
    ensures Ready(cfg, w.c, ViewOf(cfg, w, uid)) && SaneEntries(cfg, w.c, w.cache.entries)
  {
    HoldOffExactly(cfg, w, uid);
    forall ns | ns in w.cache.entries ensures SaneEntry(cfg, w.c, ns, w.cache.entries[ns]) {
      OperatorLeads(cfg, w, ns);
    }
  }

  /** Ranks and trouble do not depend on the random suffix. */
  lemma UidFree(c: Cluster, v: View, u: View, entries: map<string, PvcStatus>)
    requires u == v.(uid := u.uid)
    ensures RankSum(c, u, entries) == RankSum(c, v, entries) && (Untroubled(c, u, entries) <==> Untroubled(c, v, entries))
  {
    forall ns ensures SpaceRank(c, u, entries, ns) == SpaceRank(c, v, entries, ns) && (Troubled(c, u, entries, ns) <==> Troubled(c, v, entries, ns)) {
    }
    SumBelow(ns => SpaceRank(c, u, entries, ns), ns => SpaceRank(c, v, entries, ns), v.cfg.namespaces);
    SumBelow(ns => SpaceRank(c, v, entries, ns), ns => SpaceRank(c, u, entries, ns), v.cfg.namespaces);
  }

  ghost predicate SameStatus(w: World, w': World) {
    && w'.nodes == w.nodes && w'.cache.owner == StartStatus(w).owner && w'.cache.modes == w.cache.modes
    && w'.cache.deleting == w.cache.deleting
  }

  /** What the next pass sees of nodes and owner is the same. */
  lemma SameView(cfg: Config, w: World, w': World, uid: string)
    requires SameStatus(w, w')
    ensures ViewOf(cfg, w', uid) == ViewOf(cfg, w, uid)
  {
  }

  lemma LoopWrites(cfg: Config, w: World, uid: string)
    requires Calm(cfg, w) && FreshUid(w.c.log, uid) && w.cache.finalizer && LoopOf(cfg, w, uid).updated
    ensures var w' := OperatorPass(cfg, w, uid, true);
            && w'.c == LoopOf(cfg, w, uid).c && w'.cache.entries == LoopOf(cfg, w, uid).entries
            && SameStatus(w, w') && w'.cache.finalizer && !w'.cache.gone
  {
  }

  /** A finished status is finished for good. */
  lemma FinishedStays(w: World, cache: CacheObj)
    requires cache == Finished(w, StartStatus(w))
    ensures StatusKept(w.(cache := cache))
  {
    var w' := w.(cache := cache);
    assert cache.owner != Unknown && Collected(w') == Collected(w);
  }

  lemma QuietLoop(cfg: Config, w: World, uid: string)
    requires Calm(cfg, w) && FreshUid(w.c.log, uid) && !LoopOf(cfg, w, uid).updated
    ensures LoopOf(cfg, w, uid).c == w.c
  {
    CalmReady(cfg, w, uid);
    var ns := OpLoop(cfg, ViewOf(cfg, w, uid), Loop(w.c, w.cache.entries, false, false), 0);
  }

  /** Counts and condition are written once. */
  lemma StatusWrites(cfg: Config, w: World, uid: string)
    requires Calm(cfg, w) && FreshUid(w.c.log, uid) && w.cache.finalizer && !LoopOf(cfg, w, uid).updated
    ensures var w' := OperatorPass(cfg, w, uid, true);
            && w'.c == w.c && w'.cache.entries == w.cache.entries && SameStatus(w, w') && w'.cache.finalizer && !w'.cache.gone
            && StatusKept(w') && (StatusKept(w) ==> w' == w)
  {
    QuietLoop(cfg, w, uid);
    FinishedStays(w, Finished(w, StartStatus(w)));
  }

  /** A pass that writes brings the cache closer to rest; a pass that does not write changes nothing. */
  lemma PassProgress(cfg: Config, w: World, uid: string)
    requires Calm(cfg, w) && FreshUid(w.c.log, uid) && Peaceful(cfg, w)
    ensures var w' := OperatorPass(cfg, w, uid, true);
            && Calm(cfg, w') && Peaceful(cfg, w')
            && (if Writes(cfg, w, uid) then Distance(cfg, w') < Distance(cfg, w) else w' == w)
  {
    OperatorGood(cfg, w, uid, true);
    var w' := OperatorPass(cfg, w, uid, true);
    StatusExactly(w);
    StatusExactly(w');
    if w.cache.finalizer {
      var v := ViewOf(cfg, w, uid);
      CalmReady(cfg, w, uid);
      UidFree(w.c, v, ViewOf(cfg, w, ""), w.cache.entries);
      SameView(cfg, w, w', "");
      if LoopOf(cfg, w, uid).updated {
        LoopWrites(cfg, w, uid);
        LoopAdvances(cfg, v, Loop(w.c, w.cache.entries, false, false));
        UidFree(w'.c, v, ViewOf(cfg, w, ""), w'.cache.entries);
      } else {
        StatusWrites(cfg, w, uid);
      }
    } else {
      FinalizerWrites(cfg, w, uid);
    }
  }

  lemma FinalizerWrites(cfg: Config, w: World, uid: string)
    requires Calm(cfg, w) && !w.cache.finalizer
    ensures var w' := OperatorPass(cfg, w, uid, true);
            && w' == w.(cache := w.cache.(finalizer := true)) && Distance(cfg, w') < Distance(cfg, w)
            && (Peaceful(cfg, w') <==> Peaceful(cfg, w))
  {
  }

  /** While there is trouble every pass writes, and the trouble stays. */
  lemma TroubleWrites(cfg: Config, w: World, uid: string)
    requires Calm(cfg, w) && FreshUid(w.c.log, uid) && !Peaceful(cfg, w)
    ensures var w' := OperatorPass(cfg, w, uid, true);
            Writes(cfg, w, uid) && Calm(cfg, w') && !Peaceful(cfg, w')
  {
    OperatorGood(cfg, w, uid, true);
    var w' := OperatorPass(cfg, w, uid, true);
    if w.cache.finalizer {
      var v := ViewOf(cfg, w, uid);
      CalmReady(cfg, w, uid);
      UidFree(w.c, v, ViewOf(cfg, w, ""), w.cache.entries);
      var n :| n in cfg.namespaces && Troubled(w.c, v, w.cache.entries, n);
      LoopWritesOnce(cfg, w, uid, n);
      LoopWrites(cfg, w, uid);
      SameView(cfg, w, w', "");
      UidFree(w'.c, v, ViewOf(cfg, w, ""), w'.cache.entries);
    } else {
      FinalizerWrites(cfg, w, uid);
    }
  }

  lemma LoopWritesOnce(cfg: Config, w: World, uid: string, n: string)
    requires Calm(cfg, w) && FreshUid(w.c.log, uid) && w.cache.finalizer && Good(cfg, OperatorPass(cfg, w, uid, true))
    requires n in cfg.namespaces && Troubled(w.c, ViewOf(cfg, w, uid), w.cache.entries, n)
    ensures var r := LoopOf(cfg, w, uid); r.updated && Troubled(r.c, ViewOf(cfg, w, uid), r.entries, n)
  {
    CalmReady(cfg, w, uid);
    LoopTroubled(cfg, ViewOf(cfg, w, uid), Loop(w.c, w.cache.entries, false, false), n);
  }

  // ---------- Bounds ----------

  lemma AtMostOne<X>(s: set<X>)
    requires forall x, y :: x in s && y in s ==> x == y
    ensures |s| <= 1
  {
    if x :| x in s {
      assert s == {x};
    }
  }

  lemma LiveAtBounded(c: Cluster, l: Labels)
    requires Unique(c) && OneJob(c)
    ensures LiveAt(c, l) <= 3
  {
    AtMostOne(LivePvsAt(c, l));
    AtMostOne(LivePvcsAt(c, l));
    AtMostOne(LiveJobsAt(c, l));
  }

  lemma DistanceBounded(cfg: Config, w: World)
    requires Calm(cfg, w)
    ensures Distance(cfg, w) <= 16 * |cfg.namespaces| + 2
  {
    var v := ViewOf(cfg, w, "");
    forall ns ensures SpaceRank(w.c, v, w.cache.entries, ns) <= 8 {
      LiveAtBounded(w.c, Labels(ns, ""));
    }
    SumBounded(ns => SpaceRank(w.c, v, w.cache.entries, ns), cfg.namespaces, 8);
  }

  // ---------- The random suffix ----------

  /** Whether there is anything to do for a namespace does not depend on the random suffix. */
  lemma SameQuiet(cfg: Config, c: Cluster, v: View, u: View, entries: map<string, PvcStatus>, ns: string)
    requires Ready(cfg, c, v) && Ready(cfg, c, u) && u == v.(uid := u.uid) && Quiet(v, c, entries, ns)
    ensures Quiet(u, c, entries, ns)
  {
    if Stays(c, ns) && Waits(entries[ns].cond) && ns in c.spaces && !HoldOff(v) {
      EnsuredStep(cfg, c, v, ns, entries[ns]);
      EnsuredStep(cfg, c, u, ns, entries[ns]);
    }
  }

  lemma RestStays(cfg: Config, w: World, uid: string, uid': string)
    requires Calm(cfg, w) && FreshUid(w.c.log, uid) && FreshUid(w.c.log, uid') && !Writes(cfg, w, uid)
    ensures !Writes(cfg, w, uid')
  {
    var v, u := ViewOf(cfg, w, uid), ViewOf(cfg, w, uid');
    var s := Loop(w.c, w.cache.entries, false, false);
    CalmReady(cfg, w, uid);
    CalmReady(cfg, w, uid');
    var ns := OpLoop(cfg, v, s, 0);
    forall j | 0 <= j < |cfg.namespaces| ensures Quiet(u, w.c, w.cache.entries, cfg.namespaces[j]) {
      SameQuiet(cfg, w.c, v, u, w.cache.entries, cfg.namespaces[j]);
    }
    var n := OpLoop(cfg, u, s, 0);
  }

  // ---------- What rest means ----------

  /** A waiting entry of an open namespace that a pass leaves alone needs no write. */
  lemma QuietWait(cfg: Config, c: Cluster, v: View, ns: string, e: PvcStatus)
    requires Ready(cfg, c, v) && Open(c, ns) && Waits(e.cond)
    requires var m := Modify(c, v, ns, e); m.err || !m.updated
    ensures EntryRank(c, v, ns, e) == 0
  {
    if !HoldOff(v) {
      EnsuredStep(cfg, c, v, ns, e);
    }
  }

  lemma QuietFollow(c: Cluster, v: View, ns: string, e: PvcStatus)
    requires (v.owner == Agent || v.owner == Operator) && Stays(c, ns) && !(Waits(e.cond) && ns in c.spaces)
    requires var m := Modify(c, v, ns, e); m.err || !m.updated
    ensures EntryRank(c, v, ns, e) == 0
  {
  }

  lemma QuietRank(cfg: Config, c: Cluster, v: View, entries: map<string, PvcStatus>, ns: string)
    requires Ready(cfg, c, v) && SaneEntries(cfg, c, entries) && Quiet(v, c, entries, ns)
    ensures SpaceRank(c, v, entries, ns) == 0
  {
    if !Stays(c, ns) {
      if ns in entries {
        LingersExactly(c, entries[ns], Labels(ns, ""));
      }
    } else if Waits(entries[ns].cond) && ns in c.spaces {
      QuietWait(cfg, c, v, ns, entries[ns]);
    } else {
      QuietFollow(c, v, ns, entries[ns]);
    }
  }

  /** A pass that does not write has nothing left to do for any namespace. */
  lemma RestRanks(cfg: Config, w: World, uid: string, ns: string)
    requires Calm(cfg, w) && FreshUid(w.c.log, uid) && !Writes(cfg, w, uid) && ns in cfg.namespaces
    ensures SpaceRank(w.c, ViewOf(cfg, w, uid), w.cache.entries, ns) == 0
  {
    CalmReady(cfg, w, uid);
    var n := OpLoop(cfg, ViewOf(cfg, w, uid), Loop(w.c, w.cache.entries, false, false), 0);
    var j :| 0 <= j < |cfg.namespaces| && cfg.namespaces[j] == ns;
    QuietRank(cfg, w.c, ViewOf(cfg, w, uid), w.cache.entries, cfg.namespaces[j]);
  }

  lemma TroubleRank(c: Cluster, v: View, entries: map<string, PvcStatus>, ns: string)
    requires Troubled(c, v, entries, ns)
    ensures SpaceRank(c, v, entries, ns) > 0
  {
  }

  lemma TroubleRanks(cfg: Config, w: World)
    requires !Peaceful(cfg, w)
    ensures Distance(cfg, w) > 0
  {
    var v := ViewOf(cfg, w, "");
    var n :| n in cfg.namespaces && Troubled(w.c, v, w.cache.entries, n);
    TroubleRank(w.c, v, w.cache.entries, n);
    SumStrictlyBelow(ns => 0, ns => SpaceRank(w.c, v, w.cache.entries, ns), cfg.namespaces, n);
  }

  /** The distance is exact: a pass of the operator writes if and only if the cache is not at distance zero. */
  lemma WritesUntilZero(cfg: Config, w: World, uid: string)
    requires Calm(cfg, w) && FreshUid(w.c.log, uid)
    ensures Writes(cfg, w, uid) <==> Distance(cfg, w) > 0
  {
    if !Peaceful(cfg, w) {
      TroubleWrites(cfg, w, uid);
      TroubleRanks(cfg, w);
    } else if Writes(cfg, w, uid) {
      PassProgress(cfg, w, uid);
    } else {
      var v := ViewOf(cfg, w, uid);
      forall ns | ns in cfg.namespaces ensures SpaceRank(w.c, v, w.cache.entries, ns) == 0 {
        RestRanks(cfg, w, uid, ns);
      }
      SumBounded(ns => SpaceRank(w.c, v, w.cache.entries, ns), cfg.namespaces, 0);
      UidFree(w.c, v, ViewOf(cfg, w, ""), w.cache.entries);
      StatusExactly(w);
    }
  }

  /** The latest extract Job of the operator in a namespace has reported success. */
  ghost predicate Extracts(cfg: Config, c: Cluster, ns: string) {
    exists k :: k in c.jobs && k.ns == ns && c.jobs[k].node == "" && c.jobs[k].pvc == cfg.cache && c.jobs[k].succeeded > 0
  }

  /**
   * At rest nothing that succeeded is left unrecorded. In a namespace that stays, every entry of an Operator-owned cache
   * that is past waiting and whose Job has reported success says that the cache was downloaded.
   */
  lemma SuccessIsRecorded(cfg: Config, w: World, uid: string, ns: string)
    requires Calm(cfg, w) && FreshUid(w.c.log, uid) && !Writes(cfg, w, uid) && w.cache.owner == Operator
    requires ns in cfg.namespaces && Stays(w.c, ns) && Extracts(cfg, w.c, ns)
    ensures ns in w.cache.entries && (!Waits(w.cache.entries[ns].cond) ==> DownloadSet(w.cache.entries[ns].cond))
  {
    RestRanks(cfg, w, uid, ns);
    var k :| k in w.c.jobs && k.ns == ns && w.c.jobs[k].node == "" && w.c.jobs[k].pvc == cfg.cache && w.c.jobs[k].succeeded > 0;
    assert k in MatchingJobs(w.c, Labels(ns, ""), cfg.cache);
  }

  // ---------- Runs with a frozen environment ----------

  /** Only the operator takes steps, each with its own random suffix. */
  ghost predicate Frozen(cfg: Config, ws: seq<World>, uids: seq<string>) {
    && |ws| == |uids| + 1 && Calm(cfg, ws[0])
    && forall t :: 0 <= t < |uids| ==> FreshUid(ws[t].c.log, uids[t]) && ws[t + 1] == OperatorPass(cfg, ws[t], uids[t], true)
  }

  ghost predicate PeacefulAt(cfg: Config, ws: seq<World>, t: nat) {
    t < |ws| && Peaceful(cfg, ws[t])
  }

  lemma CalmStep(cfg: Config, ws: seq<World>, uids: seq<string>, t: nat)
    requires Frozen(cfg, ws, uids) && t < |uids| && Calm(cfg, ws[t])
    ensures Calm(cfg, ws[t + 1]) && (PeacefulAt(cfg, ws, t + 1) <==> PeacefulAt(cfg, ws, t))
  {
    if Peaceful(cfg, ws[t]) {
      PassProgress(cfg, ws[t], uids[t]);
    } else {
      TroubleWrites(cfg, ws[t], uids[t]);
    }
  }

  ghost predicate CalmAt(cfg: Config, ws: seq<World>, t: nat) {
    t < |ws| && Calm(cfg, ws[t])
  }

  lemma {:induction false} CalmThroughout(cfg: Config, ws: seq<World>, t: nat)
    requires t < |ws| && CalmAt(cfg, ws, 0)
    requires forall u: nat :: u < t && CalmAt(cfg, ws, u) ==>
               CalmAt(cfg, ws, u + 1) && (PeacefulAt(cfg, ws, u + 1) <==> PeacefulAt(cfg, ws, u))
    ensures CalmAt(cfg, ws, t) && (PeacefulAt(cfg, ws, t) <==> PeacefulAt(cfg, ws, 0))
  {
    if t > 0 {
      CalmThroughout(cfg, ws, t - 1);
    }
  }

  lemma StaysCalm(cfg: Config, ws: seq<World>, uids: seq<string>, t: nat)
    requires Frozen(cfg, ws, uids) && t < |ws|
    ensures Calm(cfg, ws[t]) && (PeacefulAt(cfg, ws, t) <==> PeacefulAt(cfg, ws, 0))
  {
    forall u: nat | u < t && CalmAt(cfg, ws, u)
      ensures CalmAt(cfg, ws, u + 1) && (PeacefulAt(cfg, ws, u + 1) <==> PeacefulAt(cfg, ws, u))
    {
      CalmStep(cfg, ws, uids, u);
    }
    CalmThroughout(cfg, ws, t);
  }

  ghost predicate WritesAt(cfg: Config, ws: seq<World>, uids: seq<string>, t: nat) {
    t < |uids| && t < |ws| && Writes(cfg, ws[t], uids[t])
  }

  ghost function DistanceAt(cfg: Config, ws: seq<World>, t: nat): nat {
    if t < |ws| then Distance(cfg, ws[t]) else 0
  }

  ghost function Wrote(cfg: Config, ws: seq<World>, uids: seq<string>): seq<bool> {
    seq(|uids|, t requires 0 <= t => WritesAt(cfg, ws, uids, t))
  }

  ghost function Distances(cfg: Config, ws: seq<World>): seq<nat> {
    seq(|ws|, t requires 0 <= t => DistanceAt(cfg, ws, t))
  }

  lemma FrozenMove(cfg: Config, ws: seq<World>, uids: seq<string>, t: nat)
    requires Frozen(cfg, ws, uids) && t < |uids| && PeacefulAt(cfg, ws, 0)
    ensures Calm(cfg, ws[t]) && FreshUid(ws[t].c.log, uids[t])
    ensures if WritesAt(cfg, ws, uids, t) then DistanceAt(cfg, ws, t + 1) < DistanceAt(cfg, ws, t) else ws[t + 1] == ws[t]
  {
    StaysCalm(cfg, ws, uids, t);
    PassProgress(cfg, ws[t], uids[t]);
  }

  lemma FrozenSpends(cfg: Config, ws: seq<World>, uids: seq<string>)
    requires Frozen(cfg, ws, uids) && PeacefulAt(cfg, ws, 0)
    ensures Settling.Spends(Distances(cfg, ws), Wrote(cfg, ws, uids)) && Distances(cfg, ws)[0] <= 16 * |cfg.namespaces| + 2
  {
    forall t: nat | t < |uids|
      ensures if WritesAt(cfg, ws, uids, t) then DistanceAt(cfg, ws, t + 1) < DistanceAt(cfg, ws, t)
              else DistanceAt(cfg, ws, t + 1) == DistanceAt(cfg, ws, t)
    {
      FrozenMove(cfg, ws, uids, t);
    }
    DistanceBounded(cfg, ws[0]);
  }

  lemma FrozenRest(cfg: Config, ws: seq<World>, uids: seq<string>, t: nat, u: nat)
    requires Frozen(cfg, ws, uids) && t < |uids| && u < |uids| && ws[u] == ws[t] && PeacefulAt(cfg, ws, 0)
    requires !WritesAt(cfg, ws, uids, t)
    ensures !WritesAt(cfg, ws, uids, u)
  {
    FrozenMove(cfg, ws, uids, t);
    FrozenMove(cfg, ws, uids, u);
    RestStays(cfg, ws[t], uids[t], uids[u]);
  }

  lemma FrozenIsRestful(cfg: Config, ws: seq<World>, uids: seq<string>)
    requires Frozen(cfg, ws, uids) && PeacefulAt(cfg, ws, 0)
    ensures Settling.Restful(ws, Wrote(cfg, ws, uids))
  {
    forall t: nat | t < |uids| && !WritesAt(cfg, ws, uids, t) ensures ws[t + 1] == ws[t] {
      FrozenMove(cfg, ws, uids, t);
    }
    forall t: nat, u: nat | t < |uids| && u < |uids| && ws[u] == ws[t] && !WritesAt(cfg, ws, uids, t)
      ensures !WritesAt(cfg, ws, uids, u)
    {
      FrozenRest(cfg, ws, uids, t, u);
    }
  }

  /** With the environment frozen and no error in the way, every pass from number `16 * namespaces + 2` on changes nothing. */
  lemma OperatorSettles(cfg: Config, ws: seq<World>, uids: seq<string>)
    requires Frozen(cfg, ws, uids) && PeacefulAt(cfg, ws, 0)
    ensures forall t :: 16 * |cfg.namespaces| + 2 <= t < |uids| ==> !Wrote(cfg, ws, uids)[t] && ws[t + 1] == ws[t]
  {
    FrozenSpends(cfg, ws, uids);
    FrozenIsRestful(cfg, ws, uids);
    Settling.SettlesInTime(ws, Distances(cfg, ws), Wrote(cfg, ws, uids), 16 * |cfg.namespaces| + 2);
  }

  /** With the environment frozen the operator records every success in time. */
  lemma SuccessInTime(cfg: Config, ws: seq<World>, uids: seq<string>, t: nat, ns: string)
    requires Frozen(cfg, ws, uids) && PeacefulAt(cfg, ws, 0) && 16 * |cfg.namespaces| + 2 <= t < |uids|
    requires ws[t].cache.owner == Operator && ns in cfg.namespaces && Stays(ws[t].c, ns) && Extracts(cfg, ws[t].c, ns)
    ensures ns in ws[t].cache.entries && (!Waits(ws[t].cache.entries[ns].cond) ==> DownloadSet(ws[t].cache.entries[ns].cond))
  {
    OperatorSettles(cfg, ws, uids);
    assert !Wrote(cfg, ws, uids)[t];
    FrozenMove(cfg, ws, uids, t);
    SuccessIsRecorded(cfg, ws[t], uids[t], ns);
  }

  /**
   * With the environment frozen the operator comes to rest if and only if no namespace is served, or about to be, while a
   * node reports an error for it. Otherwise every single pass writes.
   */
  lemma SettlesExactlyWhen(cfg: Config, ws: seq<World>, uids: seq<string>)
    requires Frozen(cfg, ws, uids) && |uids| > 16 * |cfg.namespaces| + 2
    ensures PeacefulAt(cfg, ws, 0) <==> exists t :: 0 <= t < |uids| && !Wrote(cfg, ws, uids)[t]
  {
    if PeacefulAt(cfg, ws, 0) {
      OperatorSettles(cfg, ws, uids);
      assert !Wrote(cfg, ws, uids)[16 * |cfg.namespaces| + 2];
    } else {
      forall t: nat | t < |uids| ensures Wrote(cfg, ws, uids)[t] {
        StaysCalm(cfg, ws, uids, t);
        TroubleWrites(cfg, ws[t], uids[t]);
      }
    }
  }
}
