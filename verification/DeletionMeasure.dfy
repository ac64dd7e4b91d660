/** Teardown makes progress: every attempt that changes something uses up part of a finite supply. */
module DeletionMeasure {
  import opened ApiTypes
  import opened Kube
  import opened Fleet
  import opened Protocol
  import Sums

  ghost function LivePvs(c: Cluster): set<string> {
    set n | n in c.pvs && !c.pvs[n].terminating
  }

  ghost function LivePvcs(c: Cluster): set<ObjKey> {
    set k | k in c.pvcs && !c.pvcs[k].terminating
  }

  ghost function LiveJobs(c: Cluster): set<ObjKey> {
    set k | k in c.jobs && !c.jobs[k].terminating
  }

  function Names(e: PvcStatus): nat {
    (if e.jobName != "" then 1 else 0) + (if e.pvcName != "" then 1 else 0) + (if e.pvName != "" then 1 else 0)
  }

  /** Live Jobs, PVCs and PVs in the cluster. */
  ghost function Live(c: Cluster): nat {
    |LiveJobs(c)| + |LivePvcs(c)| + |LivePvs(c)|
  }

  /** What is live in the cluster plus names still recorded in the entry. */
  ghost function Supply(c: Cluster, e: PvcStatus): nat {
    Live(c) + Names(e)
  }

  /** What one attempt or one of its stages uses up: a live object, or if none then a name. */
  ghost predicate UsesUp(c: Cluster, e: PvcStatus, r: Removal) {
    Names(r.e) <= Names(e) && if r.c != c then Live(r.c) < Live(c) else Names(r.e) < Names(e)
  }

  lemma JobSupply(c: Cluster, e: PvcStatus, caller: PvcOwner, l: Labels)
    requires DeleteJob(c, e, caller, l).updated
    ensures UsesUp(c, e, DeleteJob(c, e, caller, l))
  {
    var r := DeleteJob(c, e, caller, l);
    if r.c != c {
      var k := if e.jobName != "" then ObjKey(l.ns, e.jobName) else LatestJob(c, l, e.pvcName).value;
      assert LiveJobs(r.c) == LiveJobs(c) - {k} && k in LiveJobs(c);
    }
    assert LivePvcs(r.c) == LivePvcs(c) && LivePvs(r.c) == LivePvs(c);
  }

  lemma PvcMarkSupply(c: Cluster, k: ObjKey)
    requires k in LivePvcs(c)
    ensures var d := c.(pvcs := c.pvcs[k := c.pvcs[k].(terminating := true)]);
            Live(d) < Live(c)
  {
    var d := c.(pvcs := c.pvcs[k := c.pvcs[k].(terminating := true)]);
    assert LivePvcs(d) == LivePvcs(c) - {k};
    assert LiveJobs(d) == LiveJobs(c) && LivePvs(d) == LivePvs(c);
  }

  lemma PvMarkSupply(c: Cluster, n: string)
    requires n in LivePvs(c)
    ensures var d := c.(pvs := c.pvs[n := c.pvs[n].(terminating := true)]);
            Live(d) < Live(c)
  {
    var d := c.(pvs := c.pvs[n := c.pvs[n].(terminating := true)]);
    assert LivePvs(d) == LivePvs(c) - {n};
    assert LiveJobs(d) == LiveJobs(c) && LivePvcs(d) == LivePvcs(c);
  }

  lemma PvcAtSupply(c: Cluster, e: PvcStatus, caller: PvcOwner, l: Labels, k: ObjKey)
    requires k in c.pvcs && DeletePvcAt(c, e, caller, l, k).updated
    ensures UsesUp(c, e, DeletePvcAt(c, e, caller, l, k))
  {
    PvcMarkSupply(c, k);
  }

  lemma PvcSupply(c: Cluster, e: PvcStatus, caller: PvcOwner, l: Labels)
    requires DeletePvc(c, e, caller, l).updated
    ensures UsesUp(c, e, DeletePvc(c, e, caller, l))
  {
    match PvcLookup(c, e.pvcName, l)
    case Known =>
      if ObjKey(l.ns, e.pvcName) in c.pvcs {
        PvcAtSupply(c, e, caller, l, ObjKey(l.ns, e.pvcName));
      }
    case Adopted(_) => PvcAtSupply(c, e, caller, l, Only(PvcMatches(c, l)));
    case _ =>
  }

  lemma PvSupply(c: Cluster, e: PvcStatus, caller: PvcOwner, l: Labels)
    requires DeletePv(c, e, caller, l).updated
    ensures UsesUp(c, e, DeletePv(c, e, caller, l))
  {
    var r := DeletePv(c, e, caller, l);
    if r.c != c {
      var n := if e.pvName != "" then e.pvName else Only(PvMatches(c, l));
      assert r == DeletePvAt(c, e, caller, n);
      PvMarkSupply(c, n);
    }
  }

  /** Every attempt that returns updated strictly decreases the supply; every other attempt changes nothing. */
  lemma AttemptShrinksSupply(c: Cluster, e: PvcStatus, caller: PvcOwner, l: Labels)
    ensures var r := ManageDelete(c, e, caller, l);
            if r.updated then UsesUp(c, e, r) && Supply(r.c, r.e) < Supply(c, e) else r.c == c && r.e == e
  {
    ManageDeleteQuiet(c, e, caller, l);
    if DeleteJob(c, e, caller, l).updated {
      JobSupply(c, e, caller, l);
    } else if DeletePvc(c, e, caller, l).updated {
      PvcSupply(c, e, caller, l);
      PvcDeleteQuiet(c, e, caller, l);
    } else if DeletePv(c, e, caller, l).updated {
      PvSupply(c, e, caller, l);
    }
  }

  /** Whatever the cluster does on its own never adds to the supply. */
  lemma DriftShrinksSupply(c: Cluster, d: Cluster, e: PvcStatus)
    requires Drift(c, d)
    ensures Supply(d, e) <= Supply(c, e)
  {
    Sums.SubsetSize(LiveJobs(d), LiveJobs(c));
    Sums.SubsetSize(LivePvcs(d), LivePvcs(c));
    Sums.SubsetSize(LivePvs(d), LivePvs(c));
  }

  datatype Scene = Scene(c: Cluster, e: PvcStatus)

  ghost predicate Attempts(s: Scene, s': Scene, caller: PvcOwner, l: Labels) {
    var r := ManageDelete(s.c, s.e, caller, l);
    r.updated && s' == Scene(r.c, r.e)
  }

  /** A teardown: changing attempts on one entry, recorded each time, with the cluster moving on its own in between. */
  ghost predicate Teardown(scenes: seq<Scene>, caller: PvcOwner, l: Labels) {
    forall t :: 0 <= t < |scenes| - 1 ==>
                  || Attempts(scenes[t], scenes[t + 1], caller, l)
                  || (Drift(scenes[t].c, scenes[t + 1].c) && scenes[t + 1].e == scenes[t].e)
  }

  ghost function Changes(scenes: seq<Scene>, caller: PvcOwner, l: Labels): nat {
    if |scenes| <= 1 then 0
    else
      Changes(scenes[..|scenes| - 1], caller, l)
      + (if Attempts(scenes[|scenes| - 2], scenes[|scenes| - 1], caller, l) then 1 else 0)
  }

  /** Deletion terminates: however long a teardown runs, its attempts change something at most `Supply` times. */
  lemma {:induction false} DeletionTerminates(scenes: seq<Scene>, caller: PvcOwner, l: Labels)
    requires |scenes| > 0 && Teardown(scenes, caller, l)
    ensures Changes(scenes, caller, l) + Supply(scenes[|scenes| - 1].c, scenes[|scenes| - 1].e)
            <= Supply(scenes[0].c, scenes[0].e)
  {
    if |scenes| > 1 {
      var n := |scenes|;
      var before := scenes[..n - 1];
      DeletionTerminates(before, caller, l);
      var s, s' := scenes[n - 2], scenes[n - 1];
      assert scenes[n - 2 + 1] == s' && before[n - 2] == s;
      if Attempts(s, s', caller, l) {
        AttemptShrinksSupply(s.c, s.e, caller, l);
      } else {
        DriftShrinksSupply(s.c, s'.c, s.e);
      }
    }
  }
}
