/** The API objects both controllers share, and the operations on them, as pure functions of the cluster state. */
module Kube {
  import opened ApiTypes

  datatype ObjKey = ObjKey(ns: string, name: string)

  /** The labels that tell this cache's objects apart. The operator writes an empty node label. */
  datatype Labels = Labels(ns: string, node: string)

  datatype Pv = Pv(labels: Labels, terminating: bool)

  datatype Pvc = Pvc(labels: Labels, terminating: bool)

  datatype Job = Job(node: string, pvc: string, created: nat, terminating: bool, succeeded: nat, failed: nat, ready: nat)

  datatype Pod = Pod(ns: string, node: string, finished: bool, claims: seq<string>)

  /**
   * What has happened so far: who launched Jobs, which Jobs reported success, which names were generated and for which
   * labels, and whether the access modes were edited to call for another owner before an owner was recorded.
   */
  datatype Log = Log(launchers: set<PvcOwner>, succeeded: set<Labels>, names: map<string, Labels>, clock: nat, edited: bool)

  datatype Cluster = Cluster(
    pvs: map<string, Pv>,
    pvcs: map<ObjKey, Pvc>,
    jobs: map<ObjKey, Job>,
    pods: seq<Pod>,
    spaces: map<string, bool>, // namespace name to "is terminating"
    log: Log)

  // ---------- Pod usage ----------

  predicate OccursAt(s: string, sub: string, i: nat) {
    i + |sub| <= |s| && s[i..i + |sub|] == sub
  }

  predicate Contains(s: string, sub: string) {
    exists i :: 0 <= i <= |s| && OccursAt(s, sub, i)
  }

  predicate IsUse(pod: Pod, node: string, ns: string, claim: string, name: string) {
    pod.ns == ns && (node == "" || pod.node == node) && !pod.finished && Contains(claim, name)
  }

  function VolumeUses(pod: Pod, node: string, ns: string, name: string, volumes: nat): nat
    requires volumes <= |pod.claims|
  {
    if volumes == 0 then 0
    else VolumeUses(pod, node, ns, name, volumes - 1)
         + (if IsUse(pod, node, ns, pod.claims[volumes - 1], name) then 1 else 0)
  }

  function PodUses(pods: seq<Pod>, node: string, ns: string, name: string, count: nat): nat
    requires count <= |pods|
  {
    if count == 0 then 0
    else PodUses(pods, node, ns, name, count - 1)
         + VolumeUses(pods[count - 1], node, ns, name, |pods[count - 1].claims|)
  }

  /** Number of volumes of unfinished pods in scope whose claim name contains the given name. */
  function UseCount(pods: seq<Pod>, node: string, ns: string, name: string): nat {
    if name == "" then 0 else PodUses(pods, node, ns, name, |pods|)
  }

  /** The name occurs in the claim: something comes before it and something after it, or nothing. */
  lemma ContainsExactly(s: string, sub: string)
    ensures Contains(s, sub) <==> exists before, after :: s == before + sub + after
  {
    if Contains(s, sub) {
      var i :| 0 <= i <= |s| && OccursAt(s, sub, i);
      assert s == s[..i] + sub + s[i + |sub|..];
    }
    if before, after :| s == before + sub + after {
      assert OccursAt(s, sub, |before|);
    }
  }

  lemma ContainsSelf(s: string)
    ensures Contains(s, s)
  {
    assert OccursAt(s, s, 0);
  }

  lemma {:induction false} VolumeUsesZero(pod: Pod, node: string, ns: string, name: string, volumes: nat)
    requires volumes <= |pod.claims|
    ensures VolumeUses(pod, node, ns, name, volumes) == 0 <==>
            forall v :: 0 <= v < volumes ==> !IsUse(pod, node, ns, pod.claims[v], name)
  {
    if volumes > 0 {
      VolumeUsesZero(pod, node, ns, name, volumes - 1);
    }
  }

  lemma {:induction false} PodUsesZero(pods: seq<Pod>, node: string, ns: string, name: string, count: nat)
    requires count <= |pods|
    ensures PodUses(pods, node, ns, name, count) == 0 <==>
            forall p, v :: 0 <= p < count && 0 <= v < |pods[p].claims| ==> !IsUse(pods[p], node, ns, pods[p].claims[v], name)
  {
    if count > 0 {
      PodUsesZero(pods, node, ns, name, count - 1);
      VolumeUsesZero(pods[count - 1], node, ns, name, |pods[count - 1].claims|);
    }
  }

  // ---------- What the count means ----------

  /** Volume `v` of pod `p`, of an unfinished pod of the namespace and the node, names a claim that contains the name. */
  ghost predicate UsedBy(pods: seq<Pod>, node: string, ns: string, name: string, p: int, v: int) {
    && 0 <= p < |pods| && 0 <= v < |pods[p].claims|
    && pods[p].ns == ns && (node == "" || pods[p].node == node) && !pods[p].finished
    && exists before, after :: pods[p].claims[v] == before + name + after
  }

  lemma UsedByIsUse(pods: seq<Pod>, node: string, ns: string, name: string, p: nat, v: nat)
    requires p < |pods| && v < |pods[p].claims|
    ensures UsedBy(pods, node, ns, name, p, v) <==> IsUse(pods[p], node, ns, pods[p].claims[v], name)
  {
    ContainsExactly(pods[p].claims[v], name);
  }

  /** The uses by the first `count` pods and the first `volumes` volumes of the next one. */
  ghost function UsesUpTo(pods: seq<Pod>, node: string, ns: string, name: string, count: nat, volumes: nat): set<(int, int)>
    requires count <= |pods| && (count < |pods| ==> volumes <= |pods[count].claims|) && (count == |pods| ==> volumes == 0)
  {
    set p, v | 0 <= p < |pods| && 0 <= v < |pods[p].claims| && (p < count || (p == count && v < volumes))
               && UsedBy(pods, node, ns, name, p, v) :: (p, v)
  }

  lemma {:induction false} VolumesCounted(pods: seq<Pod>, node: string, ns: string, name: string, count: nat, volumes: nat)
    requires count < |pods| && volumes <= |pods[count].claims|
    ensures |UsesUpTo(pods, node, ns, name, count, volumes)|
            == |UsesUpTo(pods, node, ns, name, count, 0)| + VolumeUses(pods[count], node, ns, name, volumes)
  {
    if volumes > 0 {
      VolumesCounted(pods, node, ns, name, count, volumes - 1);
      UsedByIsUse(pods, node, ns, name, count, volumes - 1);
      var before, after := UsesUpTo(pods, node, ns, name, count, volumes - 1), UsesUpTo(pods, node, ns, name, count, volumes);
      if UsedBy(pods, node, ns, name, count, volumes - 1) {
        assert after == before + {(count, volumes - 1)};
      } else {
        assert after == before;
      }
    }
  }

  lemma {:induction false} PodsCounted(pods: seq<Pod>, node: string, ns: string, name: string, count: nat)
    requires count <= |pods|
    ensures |UsesUpTo(pods, node, ns, name, count, 0)| == PodUses(pods, node, ns, name, count)
  {
    if count == 0 {
      assert UsesUpTo(pods, node, ns, name, 0, 0) == {};
    } else {
      PodsCounted(pods, node, ns, name, count - 1);
      VolumesCounted(pods, node, ns, name, count - 1, |pods[count - 1].claims|);
      assert UsesUpTo(pods, node, ns, name, count, 0)
          == UsesUpTo(pods, node, ns, name, count - 1, |pods[count - 1].claims|);
    }
  }

  /** All uses of a claim, as pairs of a pod and one of its volumes. */
  ghost function UsesOf(pods: seq<Pod>, node: string, ns: string, name: string): set<(int, int)> {
    set p, v | 0 <= p < |pods| && 0 <= v < |pods[p].claims| && UsedBy(pods, node, ns, name, p, v) :: (p, v)
  }

  /** The count is the number of volumes of unfinished pods in scope that name a claim containing the name. */
  lemma UseCountExactly(pods: seq<Pod>, node: string, ns: string, name: string)
    ensures UseCount(pods, node, ns, name) == if name == "" then 0 else |UsesOf(pods, node, ns, name)|
  {
    PodsCounted(pods, node, ns, name, |pods|);
    assert UsesUpTo(pods, node, ns, name, |pods|, 0) == UsesOf(pods, node, ns, name);
  }

  /** No unfinished pod in the queried scope mounts the claim. */
  ghost predicate Unmounted(pods: seq<Pod>, node: string, ns: string, claim: string) {
    forall p :: 0 <= p < |pods| && pods[p].ns == ns && (node == "" || pods[p].node == node) && !pods[p].finished
                ==> claim !in pods[p].claims
  }

  lemma ZeroUseIsUnmounted(pods: seq<Pod>, node: string, ns: string, claim: string)
    requires claim != ""
    requires UseCount(pods, node, ns, claim) == 0
    ensures Unmounted(pods, node, ns, claim)
  {
    PodUsesZero(pods, node, ns, claim, |pods|);
    ContainsSelf(claim);
  }

  // ---------- Lookups by label ----------

  ghost function Only<T>(s: set<T>): (x: T)
    requires |s| == 1
    ensures x in s
  {
    var x :| x in s;
    x
  }

  datatype Lookup = Known | Adopted(name: string) | Missing | Ambiguous

  ghost function PvMatches(c: Cluster, l: Labels): set<string> {
    set n | n in c.pvs && c.pvs[n].labels == l
  }

  ghost function PvcMatches(c: Cluster, l: Labels): set<ObjKey> {
    set k | k in c.pvcs && c.pvcs[k].labels == l
  }

  ghost function PvLookup(c: Cluster, name: string, l: Labels): Lookup {
    if name != "" then Known
    else
      var m := PvMatches(c, l);
      if m == {} then Missing
      else if |m| == 1 then Adopted(Only(m))
      else Ambiguous
  }

  ghost function PvcLookup(c: Cluster, name: string, l: Labels): Lookup {
    if name != "" then Known
    else
      var m := PvcMatches(c, l);
      if m == {} then Missing
      else if |m| == 1 then Adopted(Only(m).name)
      else Ambiguous
  }

  ghost predicate JobMatches(job: Job, l: Labels, pvc: string) {
    job.node == l.node && job.pvc == pvc
  }

  ghost function MatchingJobs(c: Cluster, l: Labels, pvc: string): set<ObjKey> {
    set k | k in c.jobs && k.ns == l.ns && JobMatches(c.jobs[k], l, pvc)
  }

  ghost predicate Newest(c: Cluster, s: set<ObjKey>, k: ObjKey)
    requires s <= c.jobs.Keys
  {
    k in s && forall j :: j in s ==> c.jobs[j].created <= c.jobs[k].created
  }

  lemma {:induction false} NewestExists(c: Cluster, s: set<ObjKey>) returns (k: ObjKey)
    requires s != {} && s <= c.jobs.Keys
    ensures Newest(c, s, k)
  {
    var first :| first in s;
    k := first;
    var rest := s - {first};
    assert s == rest + {first};
    if rest != {} {
      var j := NewestExists(c, rest);
      if c.jobs[first].created < c.jobs[j].created {
        k := j;
      }
    }
  }

  /** The Job with the latest creation time among those carrying the labels. */
  ghost function LatestJob(c: Cluster, l: Labels, pvc: string): (r: Option<ObjKey>)
    ensures r.None? <==> MatchingJobs(c, l, pvc) == {}
    ensures r.Some? ==> Newest(c, MatchingJobs(c, l, pvc), r.value)
  {
    var s := MatchingJobs(c, l, pvc);
    if s == {} then None
    else
      assert exists k :: Newest(c, s, k) by { var k := NewestExists(c, s); }
      var k :| Newest(c, s, k);
      Some(k)
  }

  // ---------- Creation ----------

  /** Namespaced objects can be created only in a namespace that exists and is not terminating. */
  predicate Open(c: Cluster, ns: string) {
    ns in c.spaces && !c.spaces[ns]
  }

  ghost function AddName(log: Log, name: string, l: Labels): Log {
    log.(names := log.names[name := l])
  }

  ghost function AddPv(c: Cluster, name: string, l: Labels): Cluster {
    c.(pvs := c.pvs[name := Pv(l, false)], log := AddName(c.log, name, l))
  }

  /** The operator's claim carries the name of the cache, which is not a generated name. */
  ghost function AddPvc(c: Cluster, name: string, l: Labels): Cluster {
    c.(pvcs := c.pvcs[ObjKey(l.ns, name) := Pvc(l, false)], log := if l.node == "" then c.log else AddName(c.log, name, l))
  }

  ghost function AddJob(c: Cluster, name: string, l: Labels, pvc: string, launcher: PvcOwner): Cluster {
    c.(jobs := c.jobs[ObjKey(l.ns, name) := Job(l.node, pvc, c.log.clock, false, 0, 0, 0)],
       log := AddName(c.log, name, l).(launchers := c.log.launchers + {launcher}, clock := c.log.clock + 1))
  }

  datatype Managed = Managed(c: Cluster, e: PvcStatus, updated: bool, pending: bool, err: bool)

  ghost function Idle(c: Cluster, e: PvcStatus): Managed {
    Managed(c, e, false, false, false)
  }

  ghost function Changed(c: Cluster, e: PvcStatus): Managed {
    Managed(c, e, true, false, false)
  }

  ghost function Failed(c: Cluster, e: PvcStatus): Managed {
    Managed(c, e, false, false, true)
  }

  /** Create or adopt the PVC of an entry. */
  ghost function EnsurePvc(c: Cluster, e: PvcStatus, l: Labels, pvcName: string): Managed {
    match PvcLookup(c, e.pvcName, l)
    case Ambiguous => Failed(c, e)
    case Adopted(name) => Changed(c, e.(pvcName := name))
    case Known => Idle(c, e)
    case Missing =>
      var e' := e.(pvcName := pvcName);
      if !Open(c, l.ns) || ObjKey(l.ns, pvcName) in c.pvcs then Failed(c, e') else Changed(AddPvc(c, pvcName, l), e')
  }

  /** Create or adopt the PV (only where none is provisioned automatically), then the PVC, one object per pass. */
  ghost function EnsureVolume(c: Cluster, kind: bool, e: PvcStatus, l: Labels, pvName: string, pvcName: string): Managed {
    if !kind then EnsurePvc(c, e, l, pvcName)
    else
      match PvLookup(c, e.pvName, l)
      case Ambiguous => Failed(c, e)
      case Adopted(name) => Changed(c, e.(pvName := name))
      case Known => EnsurePvc(c, e, l, pvcName)
      case Missing =>
        var e' := e.(pvName := pvName);
        if pvName in c.pvs then Failed(c, e') else Changed(AddPv(c, pvName, l), e')
  }

  /** Launch the extract Job; refused when a Job with the same labels is still listed, or when the namespace is not open. */
  ghost function LaunchJob(c: Cluster, e: PvcStatus, l: Labels, jobName: string, launcher: PvcOwner): Managed {
    if LatestJob(c, l, e.pvcName).Some? || !Open(c, l.ns) then Failed(c, e)
    else Changed(AddJob(c, jobName, l, e.pvcName, launcher), e.(cond := Downloading))
  }

  // ---------- Deletion ----------

  datatype Removal = Removal(c: Cluster, e: PvcStatus, updated: bool, inUse: bool, deleting: bool, err: bool)

  ghost function Skip(c: Cluster, e: PvcStatus): Removal {
    Removal(c, e, false, false, false, false)
  }

  ghost function DeleteJob(c: Cluster, e: PvcStatus, caller: PvcOwner, l: Labels): Removal {
    var key := if e.jobName != "" then Some(ObjKey(l.ns, e.jobName)) else LatestJob(c, l, e.pvcName);
    match key
    case None => Skip(c, e)
    case Some(k) =>
      if k !in c.jobs then Skip(c, e).(e := e.(jobName := ""), updated := true)
      else if c.jobs[k].terminating || caller != e.owner then Skip(c, e)
      else
        var c' := c.(jobs := c.jobs[k := c.jobs[k].(terminating := true)]);
        Skip(c', e.(jobName := "")).(updated := true)
  }

  ghost function DeletePvcAt(c: Cluster, e: PvcStatus, caller: PvcOwner, l: Labels, k: ObjKey): Removal
    requires k in c.pvcs
  {
    if UseCount(c.pods, l.node, l.ns, k.name) != 0 then Skip(c, e).(inUse := true)
    else if c.pvcs[k].terminating then Skip(c, e).(deleting := true)
    else if caller != e.owner then Skip(c, e)
    else
      var c' := c.(pvcs := c.pvcs[k := c.pvcs[k].(terminating := true)]);
      Skip(c', e.(pvcName := "")).(updated := true)
  }

  ghost function DeletePvc(c: Cluster, e: PvcStatus, caller: PvcOwner, l: Labels): Removal {
    match PvcLookup(c, e.pvcName, l)
    case Missing => Skip(c, e)
    case Ambiguous => Skip(c, e).(err := true)
    case Known =>
      var k := ObjKey(l.ns, e.pvcName);
      if k !in c.pvcs then Skip(c, e).(e := e.(pvcName := ""), updated := true) else DeletePvcAt(c, e, caller, l, k)
    case Adopted(name) =>
      DeletePvcAt(c, e, caller, l, Only(PvcMatches(c, l)))
  }

  ghost function DeletePvAt(c: Cluster, e: PvcStatus, caller: PvcOwner, n: string): Removal
    requires n in c.pvs
  {
    if c.pvs[n].terminating || caller != e.owner then Skip(c, e)
    else
      var c' := c.(pvs := c.pvs[n := c.pvs[n].(terminating := true)]);
      Skip(c', e.(pvName := "")).(updated := true)
  }

  ghost function DeletePv(c: Cluster, e: PvcStatus, caller: PvcOwner, l: Labels): Removal {
    match PvLookup(c, e.pvName, l)
    case Missing => Skip(c, e)
    case Ambiguous => Skip(c, e).(err := true)
    case Known =>
      if e.pvName !in c.pvs then Skip(c, e).(e := e.(pvName := ""), updated := true) else DeletePvAt(c, e, caller, e.pvName)
    case Adopted(name) =>
      DeletePvAt(c, e, caller, Only(PvMatches(c, l)))
  }

  /** One teardown attempt: the Job first, then the PVC, then the PV; the first change ends the attempt. */
  ghost function ManageDelete(c: Cluster, e: PvcStatus, caller: PvcOwner, l: Labels): Removal {
    var j := DeleteJob(c, e, caller, l);
    if j.updated then j
    else
      var p := DeletePvc(c, e, caller, l);
      if !p.err && (p.updated || p.inUse || p.deleting) then p else DeletePv(c, e, caller, l)
  }

  /** An attempt either changes something and reports nothing else, or leaves everything alone. */
  ghost predicate Quiet(c: Cluster, e: PvcStatus, r: Removal) {
    if r.updated then !r.inUse && !r.deleting && !r.err else r.c == c && r.e == e
  }

  lemma JobDeleteQuiet(c: Cluster, e: PvcStatus, caller: PvcOwner, l: Labels)
    ensures Quiet(c, e, DeleteJob(c, e, caller, l))
  {
  }

  lemma PvcDeleteQuiet(c: Cluster, e: PvcStatus, caller: PvcOwner, l: Labels)
    ensures Quiet(c, e, DeletePvc(c, e, caller, l))
  {
  }

  lemma PvDeleteQuiet(c: Cluster, e: PvcStatus, caller: PvcOwner, l: Labels)
    ensures Quiet(c, e, DeletePv(c, e, caller, l))
  {
  }

  lemma ManageDeleteQuiet(c: Cluster, e: PvcStatus, caller: PvcOwner, l: Labels)
    ensures Quiet(c, e, ManageDelete(c, e, caller, l))
  {
    JobDeleteQuiet(c, e, caller, l);
    PvcDeleteQuiet(c, e, caller, l);
    PvDeleteQuiet(c, e, caller, l);
  }

  // ---------- Who deletes ----------

  lemma StagesByOwner(c: Cluster, e: PvcStatus, caller: PvcOwner, l: Labels)
    ensures caller != e.owner ==>
              DeleteJob(c, e, caller, l).c == c && DeletePvc(c, e, caller, l).c == c && DeletePv(c, e, caller, l).c == c
  {
  }

  /** Only the owner of an entry deletes objects for it; an attempt of anybody else clears names of vanished objects at most. */
  lemma OnlyOwnerDeletes(c: Cluster, e: PvcStatus, caller: PvcOwner, l: Labels)
    requires ManageDelete(c, e, caller, l).c != c
    ensures caller == e.owner
  {
    StagesByOwner(c, e, caller, l);
  }
}
