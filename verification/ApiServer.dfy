/** The shared objects as mutable state, and the object operations of both controllers as they change it step by step. */
module ApiServer {
  import opened ApiTypes
  import opened Kube

  /** A namespace entry while a pass works on it; the operations below change its fields in place. */
  class Entry {
    var pvName: string
    var pvcName: string
    var jobName: string
    var owner: PvcOwner
    var cond: Condition

    constructor (e: PvcStatus)
      ensures Value() == e
    {
      pvName, pvcName, jobName, owner, cond := e.pvName, e.pvcName, e.jobName, e.owner, e.cond;
    }

    function Value(): PvcStatus
      reads this
    {
      PvcStatus(pvName, pvcName, jobName, owner, cond)
    }
  }

  /** A list answer: every match once, in any order. */
  ghost predicate Answers<T(!new)>(items: seq<T>, matches: set<T>) {
    |items| == |matches| && forall x :: x in items <==> x in matches
  }

  /** With one Job per namespace, node and claim the latest one is determined. */
  ghost predicate UniqueJobs(c: Cluster) {
    forall k, j :: k in c.jobs && j in c.jobs && k.ns == j.ns && c.jobs[k].node == c.jobs[j].node && c.jobs[k].pvc == c.jobs[j].pvc
                   ==> k == j
  }

  /** Every object of the API has a name, and extract Jobs are unique per namespace, node and claim. */
  ghost predicate WellFormed(c: Cluster) {
    UniqueJobs(c) && "" !in c.pvs && forall k :: k in c.pvcs ==> k.name != ""
  }

  class KubeApi {
    var pvs: map<string, Pv>
    var pvcs: map<ObjKey, Pvc>
    var jobs: map<ObjKey, Job>
    var pods: seq<Pod>
    var spaces: map<string, bool>
    var clock: nat
    ghost var log: Log

    ghost function State(): Cluster
      reads this
    {
      Cluster(pvs, pvcs, jobs, pods, spaces, log.(clock := clock))
    }

    // ---------- Reading ----------

    method ListPvs(l: Labels) returns (items: seq<string>)
      ensures Answers(items, PvMatches(State(), l))
    {
      items := [];
      var todo := pvs.Keys;
      ghost var matches: set<string> := {};
      while todo != {}
        invariant todo <= pvs.Keys
        invariant matches == set n | n in pvs.Keys - todo && pvs[n].labels == l
        invariant Answers(items, matches)
        decreases |todo|
      {
        var n :| n in todo;
        todo := todo - {n};
        if pvs[n].labels == l {
          items := items + [n];
          matches := matches + {n};
        }
      }
      assert matches == PvMatches(State(), l);
    }

    method ListPvcs(l: Labels) returns (items: seq<ObjKey>)
      ensures Answers(items, PvcMatches(State(), l))
    {
      items := [];
      var todo := pvcs.Keys;
      ghost var matches: set<ObjKey> := {};
      while todo != {}
        invariant todo <= pvcs.Keys
        invariant matches == set k | k in pvcs.Keys - todo && pvcs[k].labels == l
        invariant Answers(items, matches)
        decreases |todo|
      {
        var k :| k in todo;
        todo := todo - {k};
        if pvcs[k].labels == l {
          items := items + [k];
          matches := matches + {k};
        }
      }
      assert matches == PvcMatches(State(), l);
    }

    method ListJobs(l: Labels, pvc: string) returns (items: seq<ObjKey>)
      ensures Answers(items, MatchingJobs(State(), l, pvc))
    {
      items := [];
      var todo := jobs.Keys;
      ghost var matches: set<ObjKey> := {};
      while todo != {}
        invariant todo <= jobs.Keys
        invariant matches == set k | k in jobs.Keys - todo && k.ns == l.ns && JobMatches(jobs[k], l, pvc)
        invariant Answers(items, matches)
        decreases |todo|
      {
        var k :| k in todo;
        todo := todo - {k};
        if k.ns == l.ns && jobs[k].node == l.node && jobs[k].pvc == pvc {
          items := items + [k];
          matches := matches + {k};
        }
      }
      assert matches == MatchingJobs(State(), l, pvc);
    }

    /** Count the volumes of unfinished pods that mount the claim; the query is per node unless the node is blank. */
    method GetPvcUsedByList(node: string, ns: string, name: string) returns (count: nat)
      ensures count == UseCount(pods, node, ns, name)
      ensures count == if name == "" then 0 else |UsesOf(pods, node, ns, name)|
    {
      UseCountExactly(pods, node, ns, name);
      count := 0;
      if name != "" {
        for p := 0 to |pods|
          invariant count == PodUses(pods, node, ns, name, p)
        {
          var pod := pods[p];
          for v := 0 to |pod.claims|
            invariant count == PodUses(pods, node, ns, name, p) + VolumeUses(pod, node, ns, name, v)
          {
            if pod.ns == ns && (node == "" || pod.node == node) && !pod.finished && Contains(pod.claims[v], name) {
              count := count + 1;
            }
          }
        }
      }
    }

    /** The Jobs of a namespace are told apart by node and by claim. */
    ghost predicate IsMatch(k: ObjKey, l: Labels, pvc: string)
      reads this
    {
      k in jobs && k.ns == l.ns && jobs[k].node == l.node && jobs[k].pvc == pvc
    }

    method GetLatestJob(l: Labels, pvc: string) returns (latest: Option<ObjKey>)
      ensures latest.None? ==> forall k :: !IsMatch(k, l, pvc)
      ensures latest.Some? ==>
                IsMatch(latest.value, l, pvc) && forall k :: IsMatch(k, l, pvc) ==> jobs[k].created <= jobs[latest.value].created
      ensures latest.None? <==> MatchingJobs(State(), l, pvc) == {}
      ensures latest.Some? ==> Newest(State(), MatchingJobs(State(), l, pvc), latest.value)
      ensures UniqueJobs(State()) ==> latest == LatestJob(State(), l, pvc)
    {
      latest := None;
      var items := ListJobs(l, pvc);
      for i := 0 to |items|
        invariant latest.None? <==> i == 0
        invariant latest.Some? ==> latest.value in items[..i] && latest.value in jobs
        invariant forall j :: 0 <= j < i ==> items[j] in jobs && latest.Some? && jobs[items[j]].created <= jobs[latest.value].created
      {
        assert items[i] in MatchingJobs(State(), l, pvc);
        if latest == None || jobs[items[i]].created > jobs[latest.value].created {
          latest := Some(items[i]);
        }
      }
      assert forall k :: IsMatch(k, l, pvc) <==> k in MatchingJobs(State(), l, pvc);
    }

    method PvExists(pvName: string, l: Labels) returns (pv: Option<string>, found: bool, updatedName: string, err: bool)
      ensures match PvLookup(State(), pvName, l)
              case Known => pv == None && found && updatedName == "" && !err
              case Missing => pv == None && !found && updatedName == "" && !err
              case Ambiguous => pv == None && !found && updatedName == "" && err
              case Adopted(n) => pv == Some(n) && n in pvs && !found && updatedName == n && !err
    {
      pv, found, updatedName, err := None, false, "", false;
      if pvName != "" {
        found := true;
      } else {
        var items := ListPvs(l);
        assert |items| > 0 ==> items[0] in PvMatches(State(), l);
        if |items| == 1 {
          pv, updatedName := Some(items[0]), items[0];
          assert Only(PvMatches(State(), l)) in items;
        } else if |items| > 1 {
          err := true;
        }
      }
    }

    method PvcExists(pvcName: string, l: Labels) returns (pvc: Option<ObjKey>, found: bool, updatedName: string, err: bool)
      ensures match PvcLookup(State(), pvcName, l)
              case Known => pvc == None && found && updatedName == "" && !err
              case Missing => pvc == None && !found && updatedName == "" && !err
              case Ambiguous => pvc == None && !found && updatedName == "" && err
              case Adopted(n) =>
                pvc == Some(Only(PvcMatches(State(), l))) && pvc.value in pvcs && !found && updatedName == n && !err
    {
      pvc, found, updatedName, err := None, false, "", false;
      if pvcName != "" {
        found := true;
      } else {
        var items := ListPvcs(l);
        assert |items| > 0 ==> items[0] in PvcMatches(State(), l);
        if |items| == 1 {
          pvc, updatedName := Some(items[0]), items[0].name;
          assert Only(PvcMatches(State(), l)) in items;
        } else if |items| > 1 {
          err := true;
        }
      }
    }

    // ---------- Creating ----------

    method CreatePv(name: string, l: Labels) returns (err: bool)
      modifies this
      ensures err <==> name in old(pvs)
      ensures State() == if err then old(State()) else AddPv(old(State()), name, l)
    {
      err := name in pvs;
      if !err {
        pvs := pvs[name := Pv(l, false)];
        log := AddName(log, name, l);
      }
    }

    method CreatePvc(name: string, l: Labels) returns (err: bool)
      modifies this
      ensures err <==> ObjKey(l.ns, name) in old(pvcs) || l.ns !in spaces || spaces[l.ns]
      ensures State() == if err then old(State()) else AddPvc(old(State()), name, l)
    {
      err := l.ns !in spaces || spaces[l.ns] || ObjKey(l.ns, name) in pvcs;
      if !err {
        pvcs := pvcs[ObjKey(l.ns, name) := Pvc(l, false)];
        if l.node != "" {
          log := AddName(log, name, l);
        }
      }
    }

    /** Create or adopt the claim of an entry. */
    method EnsurePvc(e: Entry, l: Labels, pvcName: string) returns (updated: bool, err: bool)
      requires WellFormed(State())
      modifies this, e`pvcName
      ensures Kube.EnsurePvc(old(State()), old(e.Value()), l, pvcName) == Managed(State(), e.Value(), updated, false, err)
    {
      updated, err := false, false;
      var pvc, found, updatedName, failed := PvcExists(e.pvcName, l);
      if failed {
        err := true;
      } else if updatedName != "" {
        e.pvcName := updatedName;
        updated := true;
      } else if !found {
        e.pvcName := pvcName;
        err := CreatePvc(e.pvcName, l);
        updated := !err;
      }
    }

    /** Create or adopt the PV where none is provisioned automatically, then the claim; one object per call. */
    method EnsureVolume(kind: bool, e: Entry, l: Labels, pvName: string, pvcName: string) returns (updated: bool, err: bool)
      requires WellFormed(State())
      modifies this, e`pvName, e`pvcName
      ensures Kube.EnsureVolume(old(State()), kind, old(e.Value()), l, pvName, pvcName)
              == Managed(State(), e.Value(), updated, false, err)
    {
      updated, err := false, false;
      var pvCreated := false;
      if kind {
        var pv, found, updatedName, failed := PvExists(e.pvName, l);
        if failed {
          return false, true;
        } else if updatedName != "" {
          e.pvName := updatedName;
          updated, pvCreated := true, true;
        } else if !found {
          e.pvName := pvName;
          err := CreatePv(e.pvName, l);
          if err {
            return false, true;
          }
          updated, pvCreated := true, true;
        }
      }
      if !pvCreated {
        updated, err := EnsurePvc(e, l, pvcName);
      }
    }

    /** Launch the extract Job unless one with the same labels is listed; the namespace has to take new objects. */
    method LaunchJob(pvcName: string, l: Labels, jobName: string, ghost launcher: PvcOwner) returns (err: bool)
      requires WellFormed(State())
      modifies this
      ensures err <==> MatchingJobs(old(State()), l, pvcName) != {} || l.ns !in spaces || spaces[l.ns]
      ensures State() == if err then old(State()) else AddJob(old(State()), jobName, l, pvcName, launcher)
    {
      var latest := GetLatestJob(l, pvcName);
      if latest.Some? || l.ns !in spaces || spaces[l.ns] {
        return true;
      }
      jobs := jobs[ObjKey(l.ns, jobName) := Job(l.node, pvcName, clock, false, 0, 0, 0)];
      clock := clock + 1;
      log := AddName(log, jobName, l).(launchers := log.launchers + {launcher});
      err := false;
    }

    // ---------- Deleting ----------

    method DeleteJob(e: Entry, caller: PvcOwner, l: Labels) returns (updated: bool)
      requires WellFormed(State())
      modifies this`jobs, e`jobName
      ensures Kube.DeleteJob(old(State()), old(e.Value()), caller, l) == Skip(State(), e.Value()).(updated := updated)
    {
      updated := false;
      var job: Option<ObjKey>;
      if e.jobName != "" {
        job := Some(ObjKey(l.ns, e.jobName));
        if job.value !in jobs {
          e.jobName := "";
          return true;
        }
      } else {
        job := GetLatestJob(l, e.pvcName);
      }
      if job.Some? {
        if !jobs[job.value].terminating && caller == e.owner {
          jobs := jobs[job.value := jobs[job.value].(terminating := true)];
          e.jobName := "";
          updated := true;
        }
      }
    }

    method DeletePvc(e: Entry, caller: PvcOwner, l: Labels) returns (updated: bool, inUse: bool, deleting: bool, err: bool)
      requires WellFormed(State())
      modifies this`pvcs, e`pvcName
      ensures Kube.DeletePvc(old(State()), old(e.Value()), caller, l) == Removal(State(), e.Value(), updated, inUse, deleting, err)
    {
      updated, inUse, deleting, err := false, false, false, false;
      var pvc: Option<ObjKey>;
      if e.pvcName != "" {
        pvc := Some(ObjKey(l.ns, e.pvcName));
        if pvc.value !in pvcs {
          e.pvcName := "";
          return true, false, false, false;
        }
      } else {
        var found, updatedName, failed;
        pvc, found, updatedName, failed := PvcExists(e.pvcName, l);
        if failed {
          return false, false, false, true;
        }
      }
      if pvc.Some? {
        var uses := GetPvcUsedByList(l.node, l.ns, pvc.value.name);
        if uses != 0 {
          inUse := true;
        } else if pvcs[pvc.value].terminating {
          deleting := true;
        } else if caller == e.owner {
          pvcs := pvcs[pvc.value := pvcs[pvc.value].(terminating := true)];
          e.pvcName := "";
          updated := true;
        }
      }
    }

    method DeletePv(e: Entry, caller: PvcOwner, l: Labels) returns (updated: bool, err: bool)
      requires WellFormed(State())
      modifies this`pvs, e`pvName
      ensures Kube.DeletePv(old(State()), old(e.Value()), caller, l) == Removal(State(), e.Value(), updated, false, false, err)
    {
      updated, err := false, false;
      var pv: Option<string>;
      if e.pvName != "" {
        pv := Some(e.pvName);
        if e.pvName !in pvs {
          e.pvName := "";
          return true, false;
        }
      } else {
        var found, updatedName, failed;
        pv, found, updatedName, failed := PvExists(e.pvName, l);
        if failed {
          return false, true;
        }
      }
      if pv.Some? && !pvs[pv.value].terminating && caller == e.owner {
        pvs := pvs[pv.value := pvs[pv.value].(terminating := true)];
        e.pvName := "";
        updated := true;
      }
    }

    /** One teardown attempt; an error of one stage is logged and the next stage is tried. */
    method ManagePvcStatusDelete(e: Entry, caller: PvcOwner, l: Labels)
      returns (updated: bool, inUse: bool, deleting: bool, err: bool)
      requires WellFormed(State())
      modifies this`jobs, this`pvcs, this`pvs, e
      ensures ManageDelete(old(State()), old(e.Value()), caller, l) == Removal(State(), e.Value(), updated, inUse, deleting, err)
    {
      ghost var c, start := State(), e.Value();
      inUse, deleting, err := false, false, false;
      JobDeleteQuiet(c, start, caller, l);
      updated := DeleteJob(e, caller, l);
      if updated {
        return;
      }
      assert State() == c && e.Value() == start;
      PvcDeleteQuiet(c, start, caller, l);
      updated, inUse, deleting, err := DeletePvc(e, caller, l);
      if !err && (updated || inUse || deleting) {
        return;
      }
      assert State() == c && e.Value() == start;
      updated, err := DeletePv(e, caller, l);
    }
  }
}
