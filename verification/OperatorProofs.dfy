/** Every operator pass keeps the invariants. */
module OperatorProofs {
  import opened ApiTypes
  import opened Kube
  import opened Fleet
  import opened OperatorSpec
  import opened OperatorFacts
  import opened Protocol
  import opened Invariants
  import opened ObjectProofs

  datatype Move = Stay | Volume | Launch | Follow(job: ObjKey) | Relabel

  /** The few kinds of change a non-deleting operator pass makes to an entry. */
  ghost predicate Moved(c: Cluster, v: View, ns: string, e: PvcStatus, m: Managed, move: Move) {
    var l := Labels(ns, "");
    match move
    case Stay => m.c == c && m.e == e
    case Volume =>
      var e' := e.(cond := Pending);
      var mv := EnsureVolume(c, v.cfg.kind, e', l, UniqueName(v.cfg.cache, v.uid), v.cfg.cache);
      && (e.cond == Pending || e.cond == NoNamespace) && !HoldOff(v)
      && !mv.err && m.c == mv.c && m.e == mv.e.(cond := m.e.cond)
      && (m.e.cond == Pending || (m.e.cond == Extracted && v.owner == Agent))
    case Launch =>
      && v.owner == Operator && e.cond == Pending && e.pvcName != "" && LatestJob(c, l, e.pvcName).None?
      && m.e == e.(cond := Downloading) && m.c == AddJob(c, e.pvcName + v.uid, l, e.pvcName, Operator)
    case Follow(k) =>
      && v.owner == Operator && e.cond != Pending && !DownloadSet(e.cond)
      && k in c.jobs && k.ns == ns && JobMatches(c.jobs[k], l, v.cfg.cache)
      && m.c == c && m.e == e.(jobName := k.name, cond := m.e.cond)
      && (m.e.cond == e.cond || m.e.cond == Downloading || (m.e.cond == Extracted && c.jobs[k].succeeded > 0))
    case Relabel =>
      && m.c == c && m.e == e.(cond := m.e.cond)
      && (if e.cond == Pending || e.cond == NoNamespace then m.e.cond == Pending || m.e.cond == NoNamespace || v.owner == Agent
          else v.owner == Agent)
  }

  lemma VolumeMove(c: Cluster, v: View, ns: string, e: PvcStatus) returns (move: Move)
    requires !ManageVolume(c, v, ns, e).err
    requires v.owner == Agent || v.owner == Operator
    ensures Moved(c, v, ns, e, ManageVolume(c, v, ns, e), move)
    ensures move.Stay? || move.Volume? || move.Relabel?
    ensures var m := ManageVolume(c, v, ns, e);
            !m.updated && !m.pending && e.cond == Pending ==> m.c == c && m.e == e && e.pvcName != ""
  {
    var m := ManageVolume(c, v, ns, e);
    var cleared := e.cond == NoNamespace && ns in c.spaces;
    if e.cond == Pending || cleared {
      EnsureIdle(c, v.cfg.kind, e.(cond := Pending), Labels(ns, ""), UniqueName(v.cfg.cache, v.uid), v.cfg.cache);
      move := if ns !in c.spaces || HoldOff(v) then Relabel else Volume;
    } else {
      move := if v.owner == Agent then Relabel else Stay;
    }
  }

  lemma JobMove(c: Cluster, v: View, ns: string, e: PvcStatus) returns (move: Move)
    requires v.owner == Operator && !ManageJob(c, v, ns, e).err
    requires e.cond == Pending ==> e.pvcName != ""
    ensures Moved(c, v, ns, e, ManageJob(c, v, ns, e), move)
  {
    var l := Labels(ns, "");
    move := Stay;
    if e.cond == Pending {
      move := Launch;
    } else if !DownloadSet(e.cond) && LatestJob(c, l, v.cfg.cache).Some? {
      move := Follow(LatestJob(c, l, v.cfg.cache).value);
    }
  }

  lemma ModifyMove(c: Cluster, v: View, ns: string, e: PvcStatus) returns (move: Move)
    requires !Modify(c, v, ns, e).err
    requires v.owner == Agent || v.owner == Operator
    ensures Moved(c, v, ns, e, Modify(c, v, ns, e), move)
  {
    move := VolumeMove(c, v, ns, e);
    VolumeIdle(c, v, ns, e);
    var m := ManageVolume(c, v, ns, e);
    if !m.updated && !m.pending && v.owner == Operator {
      move := JobMove(c, v, ns, e);
    }
  }

  // ---------- Counts ----------

  lemma {:induction false} SumPositive(nodes: seq<Option<CacheNode>>, count: nat) returns (i: nat)
    requires count <= |nodes|
    requires SumCounts(nodes, count).nodeInUse + SumCounts(nodes, count).nodeNotInUse > 0
    ensures i < count && Lists(nodes[i]) && nodes[i].value.counts.nodeInUse + nodes[i].value.counts.nodeNotInUse > 0
  {
    i := count - 1;
    if !Lists(nodes[i]) || nodes[i].value.counts.nodeInUse + nodes[i].value.counts.nodeNotInUse == 0 {
      i := SumPositive(nodes, count - 1);
    }
  }

  /** The hold-off is lifted only after some node's extract Job has reported success. */
  lemma HoldOffMeans(cfg: Config, w: World, uid: string)
    requires Inv(cfg, w) && !w.cache.deleting
    requires var v := PassView(cfg, w, StartStatus(w), uid); v.owner == Agent && !HoldOff(v)
    ensures AgentSucceeded(w.c)
  {
    var i := SumPositive(w.nodes, |w.nodes|);
    assert NodeShape(cfg, w.cache, cfg.nodeNames[i], w.nodes[i].value);
    assert NodeBacked(w, cfg.nodeNames[i], w.nodes[i].value);
  }

  // ---------- Changes to the cluster ----------

  lemma VolumeKeeps(cfg: Config, w: World, uid: string, ns: string, e: PvcStatus, m: Managed)
    requires Inv(cfg, w) && !w.cache.deleting && FreshUid(w.c.log, uid)
    requires Moved(w.c, PassView(cfg, w, StartStatus(w), uid), ns, e, m, Volume)
    ensures Unique(m.c) && Named(cfg, m.c) && Grows(w.c, m.c) && Serving(w.(c := m.c))
  {
    var v := PassView(cfg, w, StartStatus(w), uid);
    EnsureKeeps(cfg, w.c, cfg.kind, e.(cond := Pending), Labels(ns, ""), UniqueName(cfg.cache, uid), cfg.cache);
    if v.owner == Agent {
      HoldOffMeans(cfg, w, uid);
    }
  }

  /** Before a launch by the operator no Job of this namespace carries the empty node label. */
  lemma NoJobBeforeLaunch(cfg: Config, w: World, uid: string, ns: string, e: PvcStatus, m: Managed)
    requires Inv(cfg, w) && e == EntryOr(w.cache.entries, ns)
    requires Moved(w.c, PassView(cfg, w, StartStatus(w), uid), ns, e, m, Launch)
    ensures e.pvcName == cfg.cache && w.cache.owner == Operator && ns in w.cache.entries
    ensures forall k :: k in w.c.jobs && k.ns == ns ==> w.c.jobs[k].node != ""
  {
    forall k | k in w.c.jobs && k.ns == ns ensures w.c.jobs[k].node != "" {
      assert JobBacked(cfg, w, k.ns, w.c.jobs[k]);
      assert JobMatches(w.c.jobs[k], Labels(ns, ""), cfg.cache) ==> k in MatchingJobs(w.c, Labels(ns, ""), cfg.cache);
    }
  }

  lemma LaunchKeeps(cfg: Config, w: World, uid: string, ns: string, e: PvcStatus, m: Managed)
    requires Inv(cfg, w) && FreshUid(w.c.log, uid) && e == EntryOr(w.cache.entries, ns)
    requires Moved(w.c, PassView(cfg, w, StartStatus(w), uid), ns, e, m, Launch)
    ensures m.c == AddJob(w.c, cfg.cache + uid, Labels(ns, ""), cfg.cache, Operator)
    ensures ObjKey(ns, cfg.cache + uid) !in w.c.jobs
    ensures Unique(m.c) && Named(cfg, m.c) && Owners(w.(c := m.c)) && OneJobPerNode(w.(c := m.c)) && SuccessLogged(m.c)
  {
    NoJobBeforeLaunch(cfg, w, uid, ns, e, m);
    FreshJobName(w.c.log, cfg.cache, uid);
    AddJobKeeps(cfg, w.c, cfg.cache + uid, Labels(ns, ""), cfg.cache, Operator);
    AddedJobKeeps(w, cfg.cache + uid, Labels(ns, ""), cfg.cache, Operator);
  }

  lemma ModifiedObjects(cfg: Config, w: World, uid: string, ns: string, e: PvcStatus, m: Managed, move: Move)
    requires Inv(cfg, w) && !w.cache.deleting && FreshUid(w.c.log, uid)
    requires e == EntryOr(w.cache.entries, ns)
    requires Moved(w.c, PassView(cfg, w, StartStatus(w), uid), ns, e, m, move)
    ensures var w' := w.(c := m.c);
            && Unique(m.c) && Named(cfg, m.c) && Owners(w') && OneJobPerNode(w') && SuccessLogged(m.c) && Serving(w')
            && m.c.log.succeeded == w.c.log.succeeded
            && forall k :: k in m.c.jobs && (k !in w.c.jobs || m.c.jobs[k] != w.c.jobs[k]) ==>
                             m.c.jobs[k].node == "" && m.c.jobs[k].pvc == cfg.cache
  {
    if move.Volume? {
      VolumeKeeps(cfg, w, uid, ns, e, m);
    } else if move.Launch? {
      LaunchKeeps(cfg, w, uid, ns, e, m);
    }
  }

  lemma ClusterModified(cfg: Config, w: World, uid: string, ns: string, e: PvcStatus, m: Managed, move: Move)
    requires Inv(cfg, w) && !w.cache.deleting && FreshUid(w.c.log, uid)
    requires e == EntryOr(w.cache.entries, ns)
    requires Moved(w.c, PassView(cfg, w, StartStatus(w), uid), ns, e, m, move)
    ensures Inv(cfg, w.(c := m.c)) && m.c.log.succeeded == w.c.log.succeeded
  {
    var w' := w.(c := m.c);
    ModifiedObjects(cfg, w, uid, ns, e, m, move);
    forall k | k in m.c.jobs ensures JobBacked(cfg, w', k.ns, m.c.jobs[k]) {
      if k in w.c.jobs && m.c.jobs[k] == w.c.jobs[k] {
        SameNodesBacked(cfg, w, w', k.ns, w.c.jobs[k]);
      }
    }
    forall j | 0 <= j < |w.nodes| && w.nodes[j].Some? ensures NodeBacked(w', cfg.nodeNames[j], w.nodes[j].value) {
      assert NodeBacked(w, cfg.nodeNames[j], w.nodes[j].value);
    }
  }

  // ---------- Changes to the cache object ----------

  ghost predicate EntryOk(cfg: Config, w: World, owner: PvcOwner, ns: string, e: PvcStatus) {
    && ns in cfg.namespaces && e.owner == Operator && e.pvcName in {"", cfg.cache}
    && (owner == Operator && e.cond in {Extracted, Running, Outdated} ==> Labels(ns, "") in w.c.log.succeeded)
  }

  lemma AdoptedName(cfg: Config, c: Cluster, e: PvcStatus, ns: string, pvName: string)
    requires Named(cfg, c) && e.pvcName in {"", cfg.cache}
    ensures EnsureVolume(c, cfg.kind, e, Labels(ns, ""), pvName, cfg.cache).e.pvcName in {"", cfg.cache}
  {
    var l := Labels(ns, "");
    if PvcLookup(c, e.pvcName, l).Adopted? {
      assert Only(PvcMatches(c, l)) in PvcMatches(c, l);
    }
  }

  lemma MoveOk(cfg: Config, w: World, v: View, ns: string, e: PvcStatus, m: Managed, move: Move)
    requires Named(cfg, w.c) && SuccessLogged(w.c) && v.cfg == cfg
    requires EntryOk(cfg, w, v.owner, ns, e) && Moved(w.c, v, ns, e, m, move)
    ensures EntryOk(cfg, w, v.owner, ns, m.e)
  {
    if move.Volume? {
      AdoptedName(cfg, w.c, e.(cond := Pending), ns, UniqueName(cfg.cache, v.uid));
    }
  }

  lemma ModifiedEntry(cfg: Config, w: World, uid: string, ns: string, e: PvcStatus, m: Managed, move: Move)
    requires Inv(cfg, w) && ns in cfg.namespaces
    requires e == EntryOr(w.cache.entries, ns)
    requires Moved(w.c, PassView(cfg, w, StartStatus(w), uid), ns, e, m, move)
    ensures EntryOk(cfg, w, StartStatus(w).owner, ns, m.e)
  {
    MoveOk(cfg, w, PassView(cfg, w, StartStatus(w), uid), ns, e, m, move);
  }

  lemma CacheWritten(cfg: Config, w: World, entries: map<string, PvcStatus>, cache: CacheObj)
    requires Inv(cfg, w) && !w.cache.gone && Written(w, entries, cache)
    requires forall ns :: ns in entries ==> EntryOk(cfg, w, StartStatus(w).owner, ns, entries[ns])
    ensures Inv(cfg, w.(cache := cache))
  {
    var w' := w.(cache := cache);
    forall j | 0 <= j < |w.nodes| && w.nodes[j].Some?
      ensures NodeShape(cfg, cache, cfg.nodeNames[j], w.nodes[j].value)
      ensures NodeBacked(w', cfg.nodeNames[j], w.nodes[j].value)
    {
      var nd := w.nodes[j].value;
      assert NodeShape(cfg, w.cache, cfg.nodeNames[j], nd) && NodeBacked(w, cfg.nodeNames[j], nd);
      forall ns | nd.listed.Some? && ns in nd.listed.value
        ensures EntryShape(cfg, cache, nd, ns, nd.listed.value[ns])
        ensures EntryBacked(w', cfg.nodeNames[j], ns, nd.listed.value[ns])
      {
        assert EntryShape(cfg, w.cache, nd, ns, nd.listed.value[ns]);
        assert EntryBacked(w, cfg.nodeNames[j], ns, nd.listed.value[ns]);
      }
    }
    forall k | k in w.c.jobs ensures JobBacked(cfg, w', k.ns, w.c.jobs[k]) {
      SameNodesBacked(cfg, w, w', k.ns, w.c.jobs[k]);
    }
  }

  lemma KeptEntries(cfg: Config, w: World)
    requires Inv(cfg, w)
    ensures forall ns :: ns in w.cache.entries ==> EntryOk(cfg, w, StartStatus(w).owner, ns, w.cache.entries[ns])
  {
  }

  lemma ModifiedStep(cfg: Config, w: World, uid: string, c: Cluster, entries: map<string, PvcStatus>, ns: string)
    requires Inv(cfg, w) && FreshUid(w.c.log, uid)
    requires Touches(PassView(cfg, w, StartStatus(w), uid), w.c, w.cache.entries, c, entries, ns)
    ensures Inv(cfg, w.(c := c)) && c.log.succeeded == w.c.log.succeeded
    ensures forall n :: n in entries ==> EntryOk(cfg, w, StartStatus(w).owner, n, entries[n])
  {
    var v := PassView(cfg, w, StartStatus(w), uid);
    var e := EntryOr(w.cache.entries, ns);
    var m := Modify(w.c, v, ns, e);
    var move := ModifyMove(w.c, v, ns, e);
    ClusterModified(cfg, w, uid, ns, e, m, move);
    ModifiedEntry(cfg, w, uid, ns, e, m, move);
    KeptEntries(cfg, w);
  }

  lemma ModifiedKeeps(cfg: Config, w: World, uid: string, w': World, x: Effect)
    requires Inv(cfg, w) && FreshUid(w.c.log, uid)
    requires x.Modified? && Did(cfg, w, uid, w', x)
    ensures Inv(cfg, w')
  {
    ModifiedStep(cfg, w, uid, w'.c, x.entries, x.ns);
    if w'.cache != w.cache {
      CacheWritten(cfg, w.(c := w'.c), x.entries, w'.cache);
    }
  }

  lemma NodesMarked(cfg: Config, w: World, d: Cluster)
    requires Inv(cfg, w) && Marks(w.c, d)
    ensures Success(cfg, w.(c := d))
  {
    var w' := w.(c := d);
    forall j | 0 <= j < |w.nodes| && w.nodes[j].Some? ensures NodeBacked(w', cfg.nodeNames[j], w.nodes[j].value) {
      assert NodeBacked(w, cfg.nodeNames[j], w.nodes[j].value);
    }
  }

  lemma JobsMarked(cfg: Config, w: World, d: Cluster)
    requires Inv(cfg, w) && Marks(w.c, d)
    ensures JobsBacked(cfg, w.(c := d))
  {
    forall k | k in d.jobs ensures JobBacked(cfg, w.(c := d), k.ns, d.jobs[k]) {
      SameNodesBacked(cfg, w, w.(c := d), k.ns, w.c.jobs[k]);
    }
  }

  lemma ClusterMarked(cfg: Config, w: World, d: Cluster)
    requires Inv(cfg, w) && Marks(w.c, d) && Shrinks(w.c, d)
    ensures Inv(cfg, w.(c := d))
  {
    ShrinkKeeps(cfg, w.c, d);
    MarksSuccess(cfg, w, w.(c := d));
    NodesMarked(cfg, w, d);
    JobsMarked(cfg, w, d);
  }

  lemma ReleasedEntries(cfg: Config, w: World, uid: string, c: Cluster, entries: map<string, PvcStatus>, ns: string)
    requires Inv(cfg, w)
    requires Releases(PassView(cfg, w, StartStatus(w), uid), w.c, w.cache.entries, c, entries, ns)
    ensures forall n :: n in entries ==> EntryOk(cfg, w, StartStatus(w).owner, n, entries[n])
    ensures Marks(w.c, c) && Shrinks(w.c, c)
  {
    var e := w.cache.entries[ns];
    DeleteMarks(w.c, e, Operator, Labels(ns, ""));
    DeleteRenames(w.c, e, Operator, Labels(ns, ""));
    KeptEntries(cfg, w);
    assert EntryOk(cfg, w, StartStatus(w).owner, ns, e);
  }

  lemma ReleasedKeeps(cfg: Config, w: World, uid: string, w': World, x: Effect)
    requires Inv(cfg, w) && x.Released? && Did(cfg, w, uid, w', x)
    ensures Inv(cfg, w')
  {
    ReleasedEntries(cfg, w, uid, w'.c, x.entries, x.ns);
    var mid := w.(c := w'.c);
    ClusterMarked(cfg, w, w'.c);
    if w'.cache != w.cache {
      CacheWritten(cfg, mid, x.entries, w'.cache);
    }
  }

  lemma OperatorKeeps(cfg: Config, w: World, uid: string, writeOk: bool)
    requires Inv(cfg, w) && FreshUid(w.c.log, uid)
    ensures Inv(cfg, OperatorPass(cfg, w, uid, writeOk))
  {
    var w' := OperatorPass(cfg, w, uid, writeOk);
    var x := PassEffect(cfg, w, uid, writeOk);
    match x
    case Nothing =>
    case Finalized => FlagsKeep(cfg, w, w');
    case Removed => FlagsKeep(cfg, w, w');
    case Recorded => KeptEntries(cfg, w); CacheWritten(cfg, w, w.cache.entries, w'.cache);
    case Modified(_, _) => ModifiedKeeps(cfg, w, uid, w', x);
    case Released(_, _) => ReleasedKeeps(cfg, w, uid, w', x);
  }

  /** Finalizer, existence and the start of deletion carry no obligations of their own. */
  lemma FlagsKeep(cfg: Config, w: World, w': World)
    requires Inv(cfg, w) && w' == w.(cache := w'.cache)
    requires w'.cache == w.cache.(gone := w'.cache.gone, finalizer := w'.cache.finalizer, deleting := w'.cache.deleting)
    requires w.cache.deleting ==> w'.cache.deleting
    requires !w'.cache.gone && w'.cache.deleting ==> w'.cache.finalizer
    ensures Inv(cfg, w')
  {
    forall j | 0 <= j < |w.nodes| && w.nodes[j].Some? ensures NodeBacked(w', cfg.nodeNames[j], w.nodes[j].value) {
      assert NodeBacked(w, cfg.nodeNames[j], w.nodes[j].value);
    }
    forall k | k in w.c.jobs ensures JobBacked(cfg, w', k.ns, w.c.jobs[k]) {
      SameNodesBacked(cfg, w, w', k.ns, w.c.jobs[k]);
    }
  }
}
