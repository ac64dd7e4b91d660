/** With the environment frozen an agent settles: only boundedly many of its passes write anything. */
module Convergence {
  import opened ApiTypes
  import opened Kube
  import opened Fleet
  import opened AgentSpec
  import opened Invariants
  import opened Linkage
  import opened LinkProofs
  import opened Settling
  import opened Sums
  import A = AgentFacts
  import AgentProofs
  import Counts
  import D = DeletionRest

  // ---------- The rank of an entry ----------

  function Use(c: Cluster, cfg: Config, node: string, ns: string, e: PvcStatus): nat {
    if e.pvcName != "" then UseCount(c.pods, node, ns, cfg.cache) else 0
  }

  /** An entry that follows a Job: its success still has to be recorded, or its name, failure or readiness, or nothing. */
  function FollowRank(e: PvcStatus, name: string, job: Job): nat {
    if job.succeeded > 0 then 2
    else if e.jobName != name then 1
    else if job.failed > 0 then (if e.cond != Error then 1 else 0)
    else if job.ready > 0 && e.cond != Downloading then 1
    else 0
  }

  /** A claim with these labels can be adopted or created. */
  ghost predicate Claimable(c: Cluster, l: Labels) {
    PvcMatches(c, l) != {} || Open(c, l.ns)
  }

  /** How many writes an entry can still need; what cannot be created is not waited for. */
  ghost function EntryRank(c: Cluster, cfg: Config, node: string, ns: string, e: PvcStatus): (r: nat)
    ensures r <= 4
  {
    var job := LatestJob(c, Labels(ns, node), e.pvcName);
    match e.cond
    case Pending =>
      if cfg.kind && e.pvName == "" then 4
      else if e.pvcName == "" then (if Claimable(c, Labels(ns, node)) then 3 else 0)
      else if job.None? && Open(c, ns) then 2
      else 0
    case Deleting => 2
    case Extracted => if Use(c, cfg, node, ns, e) != 0 then 1 else 0
    case Running => if Use(c, cfg, node, ns, e) == 0 then 1 else 0
    case Outdated => 0
    case _ => if job.Some? then FollowRank(e, job.value.name, c.jobs[job.value]) else 0
  }

  ghost function Rank(c: Cluster, cfg: Config, node: string, entries: map<string, PvcStatus>, ns: string): (r: nat)
    ensures r <= 5
  {
    if ns in entries then EntryRank(c, cfg, node, ns, entries[ns]) else 5
  }

  // ---------- One entry ----------

  ghost predicate Sound(cfg: Config, c: Cluster) {
    Unique(c) && Named(cfg, c) && NamesFit(cfg, c)
  }

  ghost predicate Active(cfg: Config, c: Cluster, v: View) {
    && Sound(cfg, c) && v.cfg == cfg && v.owner == Agent && !v.deleting && v.node != "" && FreshUid(c.log, v.uid)
  }

  /** With unique Jobs the latest one depends only on the Jobs of its namespace. */
  lemma SameLatest(c: Cluster, d: Cluster, l: Labels, pvc: string)
    requires Unique(c) && Unique(d)
    requires forall k: ObjKey :: k.ns == l.ns ==> (k in c.jobs <==> k in d.jobs) && (k in c.jobs ==> c.jobs[k] == d.jobs[k])
    ensures LatestJob(c, l, pvc) == LatestJob(d, l, pvc)
  {
    assert MatchingJobs(c, l, pvc) == MatchingJobs(d, l, pvc);
  }

  /** A change to the objects of one namespace leaves the rank of the others alone. */
  lemma SameRank(c: Cluster, d: Cluster, cfg: Config, node: string, ns: string, e: PvcStatus)
    requires Unique(c) && Unique(d) && d.pods == c.pods && d.spaces == c.spaces
    requires PvcMatches(c, Labels(ns, node)) == PvcMatches(d, Labels(ns, node))
    requires forall k: ObjKey :: k.ns == ns ==> (k in c.jobs <==> k in d.jobs) && (k in c.jobs ==> c.jobs[k] == d.jobs[k])
    ensures EntryRank(c, cfg, node, ns, e) == EntryRank(d, cfg, node, ns, e)
  {
    SameLatest(c, d, Labels(ns, node), e.pvcName);
  }

  lemma NewPvcSucceeds(cfg: Config, c: Cluster, e: PvcStatus, l: Labels, name: string)
    requires Sound(cfg, c) && e.pvcName == "" && name != "" && ObjKey(l.ns, name) !in c.pvcs
    ensures var m := EnsurePvc(c, e, l, name); if Claimable(c, l) then !m.err && m.updated else m.err
  {
    UniqueLookups(c, l);
  }

  lemma NewPvSucceeds(cfg: Config, c: Cluster, e: PvcStatus, l: Labels, name: string, claim: string)
    requires Sound(cfg, c) && e.pvName == "" && name !in c.pvs
    ensures var m := EnsureVolume(c, true, e, l, name, claim); !m.err && m.updated
  {
    UniqueLookups(c, l);
  }

  /** A namespace without an entry gets one if and only if its first volume can be created or adopted. */
  lemma NewEntrySucceeds(cfg: Config, c: Cluster, v: View, ns: string)
    requires Active(cfg, c, v)
    ensures var m := Modify(c, v, ns, NewEntry(Agent));
            if cfg.kind || Claimable(c, Labels(ns, v.node)) then !m.err && m.updated else m.err
  {
    var l := Labels(ns, v.node);
    var name := UniqueName(cfg.cache, v.uid);
    FreshUnique(cfg, c, v.uid);
    assert name !in c.pvs && ObjKey(ns, name) !in c.pvcs;
    if cfg.kind {
      NewPvSucceeds(cfg, c, NewEntry(Agent), l, name, name);
    } else {
      NewPvcSucceeds(cfg, c, NewEntry(Agent), l, name);
    }
  }

  /** What a change for one namespace leaves alone. */
  ghost predicate Elsewhere(c: Cluster, d: Cluster, ns: string) {
    && d.pods == c.pods && d.spaces == c.spaces
    && (forall l: Labels :: l.ns != ns ==> PvcMatches(d, l) == PvcMatches(c, l))
    && forall k: ObjKey :: k.ns != ns ==> (k in c.jobs <==> k in d.jobs) && (k in c.jobs ==> c.jobs[k] == d.jobs[k])
  }

  /** Only claims with these labels may differ. */
  ghost predicate PvcsOnly(c: Cluster, d: Cluster, l: Labels) {
    forall m: Labels :: m != l ==> PvcMatches(d, m) == PvcMatches(c, m)
  }

  lemma PvcProgress(cfg: Config, c: Cluster, e: PvcStatus, l: Labels, pvcName: string)
    requires Sound(cfg, c) && pvcName != ""
    ensures var m := EnsurePvc(c, e, l, pvcName);
            !m.err && m.updated ==>
              && m.c.jobs == c.jobs && m.c.pods == c.pods && m.c.spaces == c.spaces && PvcsOnly(c, m.c, l) && Claimable(c, l)
              && e.pvcName == "" && m.e.pvcName != "" && m.e == e.(pvcName := m.e.pvcName)
  {
    if PvcLookup(c, e.pvcName, l).Adopted? {
      assert Only(PvcMatches(c, l)) in PvcMatches(c, l);
    } else if Open(c, l.ns) && ObjKey(l.ns, pvcName) !in c.pvcs {
      AddPvcOnly(c, pvcName, l);
    }
  }

  lemma AddPvcOnly(c: Cluster, name: string, l: Labels)
    requires ObjKey(l.ns, name) !in c.pvcs
    ensures PvcsOnly(c, AddPvc(c, name, l), l)
  {
    forall m: Labels | m != l ensures PvcMatches(AddPvc(c, name, l), m) == PvcMatches(c, m) {
      var d := AddPvc(c, name, l);
      assert forall k :: k in PvcMatches(d, m) <==> k in PvcMatches(c, m);
    }
  }

  lemma PvProgress(cfg: Config, c: Cluster, e: PvcStatus, l: Labels, pvName: string, pvcName: string)
    requires Sound(cfg, c) && pvName != "" && e.pvName == ""
    ensures var m := EnsureVolume(c, true, e, l, pvName, pvcName);
            !m.err && m.updated ==>
              m.c.jobs == c.jobs && m.c.pods == c.pods && m.c.spaces == c.spaces && m.c.pvcs == c.pvcs && m.e.pvName != "" && m.e == e.(pvName := m.e.pvName)
  {
    if PvLookup(c, e.pvName, l).Adopted? {
      assert Only(PvMatches(c, l)) in PvMatches(c, l);
    }
  }

  lemma SameClaims(c: Cluster, d: Cluster)
    ensures d.pvcs == c.pvcs ==> forall l :: PvcMatches(d, l) == PvcMatches(c, l)
  {
  }

  lemma VolumeProgress(c: Cluster, v: View, ns: string, e: PvcStatus)
    requires Sound(v.cfg, c) && v.owner == Agent && e.cond == Pending
    ensures var m := ManageVolume(c, v, ns, e);
            !m.err && m.updated ==>
              && Elsewhere(c, m.c, ns)
              && EntryRank(m.c, v.cfg, v.node, ns, m.e) < EntryRank(c, v.cfg, v.node, ns, e)
  {
    var l := Labels(ns, v.node);
    var claim := ClaimName(v.cfg, e, v.uid);
    if v.cfg.kind && e.pvName == "" {
      PvProgress(v.cfg, c, e, l, UniqueName(v.cfg.cache, v.uid), claim);
      SameClaims(c, ManageVolume(c, v, ns, e).c);
    } else {
      PvcProgress(v.cfg, c, e, l, claim);
    }
  }

  lemma LaunchElsewhere(c: Cluster, e: PvcStatus, l: Labels, name: string, who: PvcOwner)
    ensures Elsewhere(c, LaunchJob(c, e, l, name, who).c, l.ns)
  {
  }

  lemma LaunchProgress(cfg: Config, c: Cluster, v: View, ns: string, e: PvcStatus)
    requires Active(cfg, c, v) && e.cond == Pending && e.pvcName != "" && (cfg.kind ==> e.pvName != "")
    ensures var m := ManageJob(c, v, ns, e);
            !m.err ==> Elsewhere(c, m.c, ns) && EntryRank(m.c, v.cfg, v.node, ns, m.e) < EntryRank(c, v.cfg, v.node, ns, e)
  {
    var l := Labels(ns, v.node);
    LaunchElsewhere(c, e, l, e.pvcName + "-job-download-" + v.uid, Agent);
    if !ManageJob(c, v, ns, e).err {
      assert MatchingJobs(c, l, e.pvcName) == {};
      LaunchedJob(c, v, ns, e);
    }
  }

  /** The Job just launched has reported nothing yet. */
  lemma LaunchedJob(c: Cluster, v: View, ns: string, e: PvcStatus)
    requires v.owner == Agent && e.cond == Pending && !ManageJob(c, v, ns, e).err
    ensures EntryRank(ManageJob(c, v, ns, e).c, v.cfg, v.node, ns, ManageJob(c, v, ns, e).e) <= 1
  {
    var l := Labels(ns, v.node);
    var d := ManageJob(c, v, ns, e).c;
    var k := ObjKey(ns, e.pvcName + "-job-download-" + v.uid);
    assert forall j :: j in MatchingJobs(d, l, e.pvcName) ==> j == k || j in MatchingJobs(c, l, e.pvcName);
  }

  lemma FollowProgress(c: Cluster, v: View, ns: string, e: PvcStatus)
    requires v.owner == Agent && e.cond != Pending
    ensures var m := ManageJob(c, v, ns, e);
            !m.err && m.c == c && (m.updated ==> EntryRank(c, v.cfg, v.node, ns, m.e) < EntryRank(c, v.cfg, v.node, ns, e))
  {
  }

  lemma ModifyProgress(cfg: Config, c: Cluster, v: View, ns: string, e: PvcStatus)
    requires Active(cfg, c, v)
    ensures var m := Modify(c, v, ns, e);
            !m.err && m.updated ==> Elsewhere(c, m.c, ns) && EntryRank(m.c, v.cfg, v.node, ns, m.e) < EntryRank(c, v.cfg, v.node, ns, e)
  {
    if e.cond == Pending {
      VolumeProgress(c, v, ns, e);
      if !ManageVolume(c, v, ns, e).err && !ManageVolume(c, v, ns, e).updated {
        LaunchProgress(cfg, c, v, ns, e);
      }
    } else {
      FollowProgress(c, v, ns, e);
    }
  }

  lemma FlipProgress(c: Cluster, v: View, ns: string, e: PvcStatus, cnts: CacheCounts)
    ensures var a := AddCounts(c, v, ns, e, cnts);
            a.updated ==> EntryRank(c, v.cfg, v.node, ns, a.e) < EntryRank(c, v.cfg, v.node, ns, e)
  {
  }

  // ---------- The namespace loop ----------

  ghost predicate Progress(v: View, c: Cluster, entries: map<string, PvcStatus>, d: Cluster, entries': map<string, PvcStatus>, ns: string) {
    && ns in v.cfg.namespaces
    && ns in entries' && entries' == entries[ns := entries'[ns]]
    && Elsewhere(c, d, ns)
    && Rank(d, v.cfg, v.node, entries', ns) < Rank(c, v.cfg, v.node, entries, ns)
  }

  /** The namespace has an entry, or its first volume can be had. */
  ghost predicate Placeable(v: View, c: Cluster, entries: map<string, PvcStatus>, ns: string) {
    ns in entries || v.cfg.kind || Claimable(c, Labels(ns, v.node))
  }

  ghost predicate AllPlaceable(v: View, c: Cluster, entries: map<string, PvcStatus>) {
    forall ns :: ns in v.cfg.namespaces ==> Placeable(v, c, entries, ns)
  }

  /** A loop that asks for a write has brought one entry forward, unless it only lists a cache without namespaces. */
  lemma {:induction false} LoopProgress(cfg: Config, v: View, s: Loop, k: nat) returns (ns: string)
    requires Active(cfg, s.c, v) && k <= |cfg.namespaces|
    requires s.updated ==> s.entries == map[]
    requires AllPlaceable(v, s.c, s.entries)
    ensures var r := ModifyFrom(v, s, k);
            || (A.Same(s, r) && r.updated == s.updated)
            || (r.updated && Progress(v, s.c, s.entries, r.c, r.entries, ns))
    decreases |cfg.namespaces| - k
  {
    ns := "";
    if k < |cfg.namespaces| {
      ns := cfg.namespaces[k];
      assert Placeable(v, s.c, s.entries, ns);
      if ns !in s.entries {
        NewEntrySucceeds(cfg, s.c, v, ns);
        ModifyProgress(cfg, s.c, v, ns, NewEntry(Agent));
      } else {
        var e := s.entries[ns];
        var m := Modify(s.c, v, ns, e);
        A.ModifyIdle(s.c, v, ns, e);
        ModifyProgress(cfg, s.c, v, ns, e);
        if m.err {
          ns := LoopProgress(cfg, v, s.(c := m.c), k + 1);
        } else if !m.updated {
          var a := AddCounts(m.c, v, ns, m.e, s.cnts);
          FlipProgress(m.c, v, ns, m.e, s.cnts);
          if !a.updated {
            ns := LoopProgress(cfg, v, s.(c := m.c, cnts := a.cnts), k + 1);
          }
        }
      }
    }
  }

  // ---------- The rank of a node ----------

  ghost function RankSum(c: Cluster, cfg: Config, node: string, entries: map<string, PvcStatus>): nat {
    SumOver(ns => Rank(c, cfg, node, entries, ns), cfg.namespaces)
  }

  lemma RankSumDrops(v: View, c: Cluster, entries: map<string, PvcStatus>, d: Cluster, entries': map<string, PvcStatus>, ns: string)
    requires Progress(v, c, entries, d, entries', ns) && Unique(c) && Unique(d)
    ensures RankSum(d, v.cfg, v.node, entries') < RankSum(c, v.cfg, v.node, entries)
  {
    var before := n => Rank(c, v.cfg, v.node, entries, n);
    var after := n => Rank(d, v.cfg, v.node, entries', n);
    forall n | n in v.cfg.namespaces ensures after(n) <= before(n) {
      if n != ns && n in entries {
        SameRank(c, d, v.cfg, v.node, n, entries[n]);
      }
    }
    SumStrictlyBelow(after, before, v.cfg.namespaces, ns);
  }

  ghost predicate CountsRight(c: Cluster, cfg: Config, node: string, nd: CacheNode) {
    nd.counts.nodeCnt == 1 && Counts.Tally(c, node, cfg.cache, A.Held(nd), cfg.namespaces, nd.counts)
  }

  /** How far a node object that is set up is from rest: twice the ranks of its entries, and one for its counts. */
  ghost function Rest(c: Cluster, cfg: Config, node: string, nd: CacheNode): nat {
    2 * RankSum(c, cfg, node, A.Held(nd)) + (if nd.listed.None? then 2 else 0) + (if CountsRight(c, cfg, node, nd) then 0 else 1)
  }

  /** How far a node is from rest, whether its object is set up or not. */
  ghost function Distance(cfg: Config, w: World, i: nat): nat
    requires i < |cfg.nodeNames| && i < |w.nodes|
  {
    var node := cfg.nodeNames[i];
    var unset := 2 * RankSum(w.c, cfg, node, map[]) + 3;
    if w.nodes[i].None? then unset + 3
    else
      var nd := w.nodes[i].value;
      if nd.nodeName != node then unset + (if nd.finalizer then 1 else 2)
      else Rest(w.c, cfg, node, nd)
  }

  lemma DistanceBounded(cfg: Config, w: World, i: nat)
    requires i < |cfg.nodeNames| && i < |w.nodes|
    ensures Distance(cfg, w, i) <= 10 * |cfg.namespaces| + 6
  {
    var node := cfg.nodeNames[i];
    SumBounded(ns => Rank(w.c, cfg, node, map[], ns), cfg.namespaces, 5);
    if w.nodes[i].Some? {
      var held := A.Held(w.nodes[i].value);
      SumBounded(ns => Rank(w.c, cfg, node, held, ns), cfg.namespaces, 5);
    }
  }

  // ---------- One pass ----------

  /** A cache the agents own and nobody deletes. */
  ghost predicate Calm(cfg: Config, w: World, i: nat) {
    Good(cfg, w) && i < |cfg.nodeNames| && !w.cache.gone && !w.cache.deleting && w.cache.owner == Agent
  }

  /** The pass creates the node object or writes its metadata or status. */
  ghost predicate Writes(cfg: Config, w: World, i: nat, uid: string)
    requires i < |cfg.nodeNames| && i < |w.nodes|
  {
    || w.nodes[i].None?
    || w.nodes[i].value.nodeName != cfg.nodeNames[i]
    || var nd := w.nodes[i].value;
       var s := RunLoop(NodeView(cfg, w, i, uid), StartLoop(w.c, nd.listed));
       s.updated || s.cnts != nd.counts
  }

  lemma CalmView(cfg: Config, w: World, i: nat, uid: string)
    requires Calm(cfg, w, i) && FreshUid(w.c.log, uid)
    requires w.nodes[i].Some? && w.nodes[i].value.nodeName == cfg.nodeNames[i]
    ensures var v := NodeView(cfg, w, i, uid); Active(cfg, w.c, v) && v.node == cfg.nodeNames[i] && v.finalizer
  {
    assert NodeShape(cfg, w.cache, cfg.nodeNames[i], w.nodes[i].value);
  }

  lemma {:induction false} NodeCntStays(v: View, s: Loop, k: nat)
    requires k <= |v.cfg.namespaces| && v.finalizer && s.cnts.nodeCnt == 1
    ensures ModifyFrom(v, s, k).cnts.nodeCnt == 1
    decreases |v.cfg.namespaces| - k
  {
    if k < |v.cfg.namespaces| {
      var ns := v.cfg.namespaces[k];
      var m := Modify(s.c, v, ns, A.EntryOr(v, s.entries, ns));
      var s' := s.(c := m.c, updated := s.updated || ns !in s.entries);
      if m.err {
        NodeCntStays(v, s', k + 1);
      } else if !s'.updated && !m.updated {
        NodeCntStays(v, s'.(cnts := AddCounts(m.c, v, ns, m.e, s.cnts).cnts), k + 1);
      }
    }
  }

  /** The counts of a quiet loop are the only right ones. */
  lemma QuietCounts(cfg: Config, c: Cluster, v: View, nd: CacheNode)
    requires Active(cfg, c, v) && v.finalizer && nd.listed.Some? && !RunLoop(v, StartLoop(c, nd.listed)).updated
    ensures var cnts := RunLoop(v, StartLoop(c, nd.listed)).cnts;
            CountsRight(c, cfg, v.node, nd.(counts := cnts)) && (CountsRight(c, cfg, v.node, nd) ==> nd.counts == cnts)
  {
    NodeCntStays(v, StartLoop(c, nd.listed), 0);
    Counts.QuietLoopCounts(v, c, nd.listed.value);
  }

  lemma PlaceableStays(v: View, c: Cluster, entries: map<string, PvcStatus>, d: Cluster, entries': map<string, PvcStatus>, ns: string)
    requires Progress(v, c, entries, d, entries', ns) && AllPlaceable(v, c, entries)
    ensures AllPlaceable(v, d, entries')
  {
    forall n | n in v.cfg.namespaces ensures Placeable(v, d, entries', n) {
      assert Placeable(v, c, entries, n);
    }
  }

  /** What the loop leaves is closer to rest. */
  lemma LoopSpends(cfg: Config, c: Cluster, v: View, nd: CacheNode)
    requires Active(cfg, c, v) && AllPlaceable(v, c, A.Held(nd))
    requires var s := RunLoop(v, StartLoop(c, nd.listed)); s.updated && Unique(s.c)
    ensures var s := RunLoop(v, StartLoop(c, nd.listed));
            && AllPlaceable(v, s.c, s.entries)
            && (RankSum(s.c, cfg, v.node, s.entries) < RankSum(c, cfg, v.node, A.Held(nd))
                || (nd.listed.None? && s.c == c && s.entries == map[]))
  {
    var start := StartLoop(c, nd.listed);
    var ns := LoopProgress(cfg, v, start, 0);
    var s := RunLoop(v, start);
    if Progress(v, c, start.entries, s.c, s.entries, ns) {
      RankSumDrops(v, c, start.entries, s.c, s.entries, ns);
      PlaceableStays(v, c, start.entries, s.c, s.entries, ns);
    }
  }

  lemma BodyProgress(cfg: Config, c: Cluster, v: View, nd: CacheNode)
    requires Active(cfg, c, v) && v.finalizer && AllPlaceable(v, c, A.Held(nd))
    requires Unique(PassBody(v, c, nd, true).c)
    ensures var s := RunLoop(v, StartLoop(c, nd.listed));
            var p := PassBody(v, c, nd, true);
            if s.updated || s.cnts != nd.counts
            then Rest(p.c, cfg, v.node, p.nd) < Rest(c, cfg, v.node, nd) && p.nd.nodeName == nd.nodeName
                 && AllPlaceable(v, p.c, A.Held(p.nd))
            else p == Pass(c, nd)
  {
    if RunLoop(v, StartLoop(c, nd.listed)).updated {
      LoopSpends(cfg, c, v, nd);
    } else {
      var ns := LoopProgress(cfg, v, StartLoop(c, nd.listed), 0);
      QuietCounts(cfg, c, v, nd);
    }
  }

  /** Every namespace has an entry on the node, or its first volume can be had. */
  ghost predicate Placed(cfg: Config, w: World, i: nat)
    requires i < |cfg.nodeNames| && i < |w.nodes|
  {
    forall ns :: ns in cfg.namespaces ==> HasPlace(cfg, w, i, ns)
  }

  ghost predicate HasPlace(cfg: Config, w: World, i: nat, ns: string)
    requires i < |cfg.nodeNames| && i < |w.nodes|
  {
    ns in Holds(w.nodes[i]) || cfg.kind || Claimable(w.c, Labels(ns, cfg.nodeNames[i]))
  }

  lemma PlacedView(cfg: Config, w: World, i: nat, uid: string)
    requires i < |cfg.nodeNames| && i < |w.nodes| && w.nodes[i].Some?
    ensures Placed(cfg, w, i) <==> AllPlaceable(NodeView(cfg, w, i, uid), w.c, A.Held(w.nodes[i].value))
  {
    var v := NodeView(cfg, w, i, uid);
    assert forall ns :: HasPlace(cfg, w, i, ns) <==> Placeable(v, w.c, A.Held(w.nodes[i].value), ns);
  }

  /** A pass that writes brings the node closer to rest; a pass that does not write changes nothing at all. */
  lemma PassProgress(cfg: Config, w: World, i: nat, uid: string)
    requires Calm(cfg, w, i) && FreshUid(w.c.log, uid) && Placed(cfg, w, i)
    ensures var w' := AgentPass(cfg, w, i, uid, true);
            Calm(cfg, w', i) && Placed(cfg, w', i) && (if Writes(cfg, w, i, uid) then Distance(cfg, w', i) < Distance(cfg, w, i) else w' == w)
  {
    AgentGood(cfg, w, i, uid, true);
    if w.nodes[i].Some? && w.nodes[i].value.nodeName == cfg.nodeNames[i] {
      CalmView(cfg, w, i, uid);
      PlacedView(cfg, w, i, uid);
      BodyProgress(cfg, w.c, NodeView(cfg, w, i, uid), w.nodes[i].value);
      PlacedView(cfg, AgentPass(cfg, w, i, uid, true), i, uid);
      assert w.nodes[i := w.nodes[i]] == w.nodes;
    } else {
      UnsetProgress(cfg, w, i, uid);
    }
  }

  /** Creating and setting up the node object. */
  lemma UnsetProgress(cfg: Config, w: World, i: nat, uid: string)
    requires Calm(cfg, w, i)
    requires w.nodes[i].None? || w.nodes[i].value.nodeName != cfg.nodeNames[i]
    ensures var w' := AgentPass(cfg, w, i, uid, true);
            w'.c == w.c && Holds(w'.nodes[i]) == Holds(w.nodes[i]) && Distance(cfg, w', i) < Distance(cfg, w, i)
    ensures var w' := AgentPass(cfg, w, i, uid, true); Placed(cfg, w', i) <==> Placed(cfg, w, i)
  {
    assert w.nodes[i].Some? ==> NodeShape(cfg, w.cache, cfg.nodeNames[i], w.nodes[i].value);
    var w' := AgentPass(cfg, w, i, uid, true);
    assert forall ns :: HasPlace(cfg, w', i, ns) <==> HasPlace(cfg, w, i, ns);
  }

  // ---------- A namespace without a place ----------

  lemma {:induction false} LoopBusy(cfg: Config, v: View, s: Loop, k: nat, j: nat)
    requires Active(cfg, s.c, v) && k <= j < |cfg.namespaces| && !Placeable(v, s.c, s.entries, cfg.namespaces[j])
    ensures ModifyFrom(v, s, k).updated
    decreases |cfg.namespaces| - k
  {
    var ns := cfg.namespaces[k];
    var m := Modify(s.c, v, ns, A.EntryOr(v, s.entries, ns));
    A.ModifyIdle(s.c, v, ns, A.EntryOr(v, s.entries, ns));
    if ns !in s.entries {
      Counts.UpdatedStays(v, s.(c := m.c, updated := true), k + 1);
    } else if m.err {
      LoopBusy(cfg, v, s.(c := m.c), k + 1, j);
    } else if !s.updated && !m.updated {
      var a := AddCounts(m.c, v, ns, m.e, s.cnts);
      if !a.updated {
        LoopBusy(cfg, v, s.(c := m.c, cnts := a.cnts), k + 1, j);
      }
    }
  }

  /** Whatever the loop does to other namespaces, this one stays without an entry and without a claim. */
  lemma LoopKeepsUnplaced(cfg: Config, v: View, s: Loop, ns: string)
    requires Active(cfg, s.c, v) && !Placeable(v, s.c, s.entries, ns)
    ensures var r := ModifyFrom(v, s, 0); !Placeable(v, r.c, r.entries, ns)
  {
    var n := A.ModifyLoop(v, s, 0);
    var r := ModifyFrom(v, s, 0);
    if !A.Same(s, r) {
      NewEntrySucceeds(cfg, s.c, v, ns);
      ModifyProgress(cfg, s.c, v, n, A.EntryOr(v, s.entries, n));
      A.ModifyIdle(s.c, v, n, A.EntryOr(v, s.entries, n));
    }
  }

  lemma UnplacedBody(cfg: Config, c: Cluster, v: View, nd: CacheNode, ns: string)
    requires Active(cfg, c, v) && ns in cfg.namespaces && !Placeable(v, c, A.Held(nd), ns)
    ensures RunLoop(v, StartLoop(c, nd.listed)).updated
    ensures var p := PassBody(v, c, nd, true);
            p.nd.nodeName == nd.nodeName && !Placeable(v, p.c, A.Held(p.nd), ns)
  {
    var j :| 0 <= j < |cfg.namespaces| && cfg.namespaces[j] == ns;
    LoopBusy(cfg, v, StartLoop(c, nd.listed), 0, j);
    LoopKeepsUnplaced(cfg, v, StartLoop(c, nd.listed), ns);
  }

  /** While a namespace has no place every pass asks for a write, and the namespace gets none. */
  lemma UnplacedWrites(cfg: Config, w: World, i: nat, uid: string)
    requires Calm(cfg, w, i) && FreshUid(w.c.log, uid) && !Placed(cfg, w, i)
    ensures Writes(cfg, w, i, uid) && Distance(cfg, w, i) > 0
    ensures Calm(cfg, AgentPass(cfg, w, i, uid, true), i) && !Placed(cfg, AgentPass(cfg, w, i, uid, true), i)
  {
    AgentGood(cfg, w, i, uid, true);
    var w' := AgentPass(cfg, w, i, uid, true);
    if w.nodes[i].Some? && w.nodes[i].value.nodeName == cfg.nodeNames[i] {
      var v, nd := NodeView(cfg, w, i, uid), w.nodes[i].value;
      var ns :| ns in cfg.namespaces && !HasPlace(cfg, w, i, ns);
      CalmView(cfg, w, i, uid);
      UnplacedBody(cfg, w.c, v, nd, ns);
      UnplacedRank(cfg, w, i, ns);
      assert !HasPlace(cfg, w', i, ns);
    } else {
      UnsetProgress(cfg, w, i, uid);
    }
  }

  lemma UnplacedRank(cfg: Config, w: World, i: nat, ns: string)
    requires i < |cfg.nodeNames| && i < |w.nodes| && w.nodes[i].Some? && w.nodes[i].value.nodeName == cfg.nodeNames[i]
    requires ns in cfg.namespaces && ns !in Holds(w.nodes[i])
    ensures Distance(cfg, w, i) > 0
  {
    var held := A.Held(w.nodes[i].value);
    SumStrictlyBelow(n => 0, n => Rank(w.c, cfg, cfg.nodeNames[i], held, n), cfg.namespaces, ns);
  }

  // ---------- Runs with a frozen environment ----------

  /** Only the agent of node `i` takes steps, each with its own random suffix. */
  ghost predicate Frozen(cfg: Config, ws: seq<World>, i: nat, uids: seq<string>) {
    && |ws| == |uids| + 1
    && Calm(cfg, ws[0], i)
    && forall t :: 0 <= t < |uids| ==>
         i < |ws[t].nodes| && FreshUid(ws[t].c.log, uids[t]) && ws[t + 1] == AgentPass(cfg, ws[t], i, uids[t], true)
  }

  lemma {:induction false} StaysCalm(cfg: Config, ws: seq<World>, i: nat, uids: seq<string>, t: nat)
    requires Frozen(cfg, ws, i, uids) && t < |ws|
    ensures Calm(cfg, ws[t], i) && (Placed(cfg, ws[t], i) <==> Placed(cfg, ws[0], i))
  {
    if t > 0 {
      StaysCalm(cfg, ws, i, uids, t - 1);
      if Placed(cfg, ws[0], i) {
        PassProgress(cfg, ws[t - 1], i, uids[t - 1]);
      } else {
        UnplacedWrites(cfg, ws[t - 1], i, uids[t - 1]);
      }
    }
  }

  /** Whether pass number `t` writes. */
  ghost predicate WritesAt(cfg: Config, ws: seq<World>, i: nat, uids: seq<string>, t: nat) {
    t < |uids| && t < |ws| && i < |cfg.nodeNames| && i < |ws[t].nodes| && Writes(cfg, ws[t], i, uids[t])
  }

  ghost function DistanceAt(cfg: Config, ws: seq<World>, i: nat, t: nat): nat {
    if t < |ws| && i < |cfg.nodeNames| && i < |ws[t].nodes| then Distance(cfg, ws[t], i) else 0
  }

  ghost function Wrote(cfg: Config, ws: seq<World>, i: nat, uids: seq<string>): seq<bool> {
    seq(|uids|, t requires 0 <= t => WritesAt(cfg, ws, i, uids, t))
  }

  ghost function Distances(cfg: Config, ws: seq<World>, i: nat): seq<nat> {
    seq(|ws|, t requires 0 <= t => DistanceAt(cfg, ws, i, t))
  }

  lemma FrozenMove(cfg: Config, ws: seq<World>, i: nat, uids: seq<string>, t: nat)
    requires Frozen(cfg, ws, i, uids) && t < |uids| && Placed(cfg, ws[0], i)
    ensures Calm(cfg, ws[t], i) && FreshUid(ws[t].c.log, uids[t])
    ensures if WritesAt(cfg, ws, i, uids, t) then DistanceAt(cfg, ws, i, t + 1) < DistanceAt(cfg, ws, i, t) else ws[t + 1] == ws[t]
  {
    StaysCalm(cfg, ws, i, uids, t);
    PassProgress(cfg, ws[t], i, uids[t]);
  }

  lemma FrozenSpends(cfg: Config, ws: seq<World>, i: nat, uids: seq<string>)
    requires Frozen(cfg, ws, i, uids) && Placed(cfg, ws[0], i)
    ensures Spends(Distances(cfg, ws, i), Wrote(cfg, ws, i, uids))
    ensures Distances(cfg, ws, i)[0] <= 10 * |cfg.namespaces| + 6
  {
    forall t: nat | t < |uids|
      ensures if WritesAt(cfg, ws, i, uids, t) then DistanceAt(cfg, ws, i, t + 1) < DistanceAt(cfg, ws, i, t)
              else DistanceAt(cfg, ws, i, t + 1) == DistanceAt(cfg, ws, i, t)
    {
      FrozenMove(cfg, ws, i, uids, t);
    }
    DistanceBounded(cfg, ws[0], i);
  }

  /** Convergence: however many passes an agent takes, at most ten writes a namespace and six more are made in all. */
  lemma BoundedWrites(cfg: Config, ws: seq<World>, i: nat, uids: seq<string>)
    requires Frozen(cfg, ws, i, uids) && Placed(cfg, ws[0], i)
    ensures Trues(Wrote(cfg, ws, i, uids)) <= 10 * |cfg.namespaces| + 6
  {
    FrozenSpends(cfg, ws, i, uids);
    WritesAreBounded(Distances(cfg, ws, i), Wrote(cfg, ws, i, uids));
  }

  // ---------- Rest ----------

  lemma SameVolume(cfg: Config, c: Cluster, v: View, u: View, ns: string, e: PvcStatus)
    requires Active(cfg, c, v) && Active(cfg, c, u) && u == v.(uid := u.uid)
    ensures var m, n := ManageVolume(c, v, ns, e), ManageVolume(c, u, ns, e);
            m.err == n.err && m.updated == n.updated && (!m.err && !m.updated ==> m == n)
  {
    FreshUnique(cfg, c, v.uid);
    FreshUnique(cfg, c, u.uid);
    var a, b := UniqueName(cfg.cache, v.uid), UniqueName(cfg.cache, u.uid);
    assert a !in c.pvs && ObjKey(ns, a) !in c.pvcs && b !in c.pvs && ObjKey(ns, b) !in c.pvcs;
  }

  lemma SameJob(c: Cluster, v: View, u: View, ns: string, e: PvcStatus)
    requires u == v.(uid := u.uid)
    ensures var m, n := ManageJob(c, v, ns, e), ManageJob(c, u, ns, e);
            m.err == n.err && m.updated == n.updated && (!m.err && !m.updated ==> m == n)
  {
  }

  /** The random suffix plays no part in whether a pass has anything to do. */
  lemma SameModify(cfg: Config, c: Cluster, v: View, u: View, ns: string, e: PvcStatus)
    requires Active(cfg, c, v) && Active(cfg, c, u) && u == v.(uid := u.uid)
    ensures var m, n := Modify(c, v, ns, e), Modify(c, u, ns, e);
            m.err == n.err && m.updated == n.updated && (!m.err && !m.updated ==> m == n)
  {
    SameVolume(cfg, c, v, u, ns, e);
    SameJob(c, v, u, ns, e);
  }

  /** A namespace that changes nothing is stepped over. */
  ghost predicate Idles(v: View, s: Loop, ns: string) {
    && ns in s.entries
    && var m := Modify(s.c, v, ns, s.entries[ns]);
       m.err || (!m.updated && !AddCounts(s.c, v, ns, s.entries[ns], s.cnts).updated)
  }

  ghost function CountsAfter(v: View, s: Loop, ns: string): CacheCounts
    requires Idles(v, s, ns)
  {
    if Modify(s.c, v, ns, s.entries[ns]).err then s.cnts else AddCounts(s.c, v, ns, s.entries[ns], s.cnts).cnts
  }

  lemma StepOver(v: View, s: Loop, k: nat)
    requires k < |v.cfg.namespaces| && !s.updated && Idles(v, s, v.cfg.namespaces[k])
    ensures ModifyFrom(v, s, k) == ModifyFrom(v, s.(cnts := CountsAfter(v, s, v.cfg.namespaces[k])), k + 1)
  {
    var ns := v.cfg.namespaces[k];
    A.ModifyIdle(s.c, v, ns, s.entries[ns]);
    assert s.(c := s.c, updated := false) == s;
  }

  lemma MustIdle(v: View, s: Loop, k: nat)
    requires k < |v.cfg.namespaces| && !s.updated && !ModifyFrom(v, s, k).updated
    ensures Idles(v, s, v.cfg.namespaces[k])
  {
    var ns := v.cfg.namespaces[k];
    var m := Modify(s.c, v, ns, A.EntryOr(v, s.entries, ns));
    A.ModifyIdle(s.c, v, ns, A.EntryOr(v, s.entries, ns));
    Counts.UpdatedStays(v, s.(c := m.c, updated := true), k + 1);
  }

  lemma SameIdle(cfg: Config, v: View, u: View, s: Loop, ns: string)
    requires Active(cfg, s.c, v) && Active(cfg, s.c, u) && u == v.(uid := u.uid) && Idles(v, s, ns)
    ensures Idles(u, s, ns) && CountsAfter(u, s, ns) == CountsAfter(v, s, ns)
  {
    SameModify(cfg, s.c, v, u, ns, s.entries[ns]);
  }

  lemma {:induction false} SameLoop(cfg: Config, v: View, u: View, s: Loop, k: nat)
    requires Active(cfg, s.c, v) && Active(cfg, s.c, u) && u == v.(uid := u.uid)
    requires k <= |cfg.namespaces| && !s.updated && !ModifyFrom(v, s, k).updated
    ensures ModifyFrom(u, s, k) == ModifyFrom(v, s, k)
    decreases |cfg.namespaces| - k
  {
    if k < |cfg.namespaces| {
      var ns := cfg.namespaces[k];
      MustIdle(v, s, k);
      SameIdle(cfg, v, u, s, ns);
      StepOver(v, s, k);
      StepOver(u, s, k);
      SameLoop(cfg, v, u, s.(cnts := CountsAfter(v, s, ns)), k + 1);
    }
  }

  lemma RestStays(cfg: Config, w: World, i: nat, uid: string, uid': string)
    requires Calm(cfg, w, i) && FreshUid(w.c.log, uid) && FreshUid(w.c.log, uid') && !Writes(cfg, w, i, uid)
    ensures !Writes(cfg, w, i, uid')
  {
    CalmView(cfg, w, i, uid);
    CalmView(cfg, w, i, uid');
    Counts.UpdatedStays(NodeView(cfg, w, i, uid), StartLoop(w.c, None), 0);
    SameLoop(cfg, NodeView(cfg, w, i, uid), NodeView(cfg, w, i, uid'), StartLoop(w.c, w.nodes[i].value.listed), 0);
  }

  lemma FrozenRest(cfg: Config, ws: seq<World>, i: nat, uids: seq<string>, t: nat, u: nat)
    requires Frozen(cfg, ws, i, uids) && t < |uids| && u < |uids| && ws[u] == ws[t] && Placed(cfg, ws[0], i)
    requires !WritesAt(cfg, ws, i, uids, t)
    ensures !WritesAt(cfg, ws, i, uids, u)
  {
    FrozenMove(cfg, ws, i, uids, t);
    FrozenMove(cfg, ws, i, uids, u);
    RestStays(cfg, ws[t], i, uids[t], uids[u]);
  }

  lemma FrozenIsRestful(cfg: Config, ws: seq<World>, i: nat, uids: seq<string>)
    requires Frozen(cfg, ws, i, uids) && Placed(cfg, ws[0], i)
    ensures Restful(ws, Wrote(cfg, ws, i, uids))
  {
    forall t: nat | t < |uids| && !WritesAt(cfg, ws, i, uids, t) ensures ws[t + 1] == ws[t] {
      FrozenMove(cfg, ws, i, uids, t);
    }
    forall t: nat, u: nat | t < |uids| && u < |uids| && ws[u] == ws[t] && !WritesAt(cfg, ws, i, uids, t)
      ensures !WritesAt(cfg, ws, i, uids, u)
    {
      FrozenRest(cfg, ws, i, uids, t, u);
    }
  }

  /** Convergence: with the environment frozen, every pass from number `10 * namespaces + 6` on leaves the world as it is. */
  lemma AgentSettles(cfg: Config, ws: seq<World>, i: nat, uids: seq<string>)
    requires Frozen(cfg, ws, i, uids) && Placed(cfg, ws[0], i)
    ensures forall t :: 10 * |cfg.namespaces| + 6 <= t < |uids| ==> !Wrote(cfg, ws, i, uids)[t] && ws[t + 1] == ws[t]
  {
    FrozenSpends(cfg, ws, i, uids);
    FrozenIsRestful(cfg, ws, i, uids);
    SettlesInTime(ws, Distances(cfg, ws, i), Wrote(cfg, ws, i, uids), 10 * |cfg.namespaces| + 6);
  }

  /**
   * With the environment frozen an agent comes to rest if and only if every namespace has an entry or its first volume can
   * be had. Otherwise each of its passes asks for a write, for the entry that it cannot fill.
   */
  lemma SettlesExactlyWhen(cfg: Config, ws: seq<World>, i: nat, uids: seq<string>)
    requires Frozen(cfg, ws, i, uids) && |uids| > 10 * |cfg.namespaces| + 6
    ensures Placed(cfg, ws[0], i) <==> exists t :: 0 <= t < |uids| && !Wrote(cfg, ws, i, uids)[t]
  {
    if Placed(cfg, ws[0], i) {
      AgentSettles(cfg, ws, i, uids);
      assert !Wrote(cfg, ws, i, uids)[10 * |cfg.namespaces| + 6];
    } else {
      forall t: nat | t < |uids| ensures Wrote(cfg, ws, i, uids)[t] {
        StaysCalm(cfg, ws, i, uids, t);
        UnplacedWrites(cfg, ws[t], i, uids[t]);
      }
    }
  }

  // ---------- What rest means ----------

  /** What fails for a recorded entry: a launch while the Job is listed, or anything in a namespace that is not open. */
  lemma IdleRank(cfg: Config, v: View, s: Loop, ns: string)
    requires Active(cfg, s.c, v) && Idles(v, s, ns) && Linked(s.c, Labels(ns, v.node), s.entries[ns])
    ensures Rank(s.c, cfg, v.node, s.entries, ns) == 0
  {
    var e := s.entries[ns];
    var m := Modify(s.c, v, ns, e);
    A.ModifyIdle(s.c, v, ns, e);
    if e.cond == Pending {
      VolumeFails(cfg, s.c, v, ns, e);
      if !ManageVolume(s.c, v, ns, e).err {
        VolumeThere(s.c, v, ns, e);
      }
    }
  }

  lemma VolumeThere(c: Cluster, v: View, ns: string, e: PvcStatus)
    requires v.owner == Agent && e.cond == Pending
    requires var m := ManageVolume(c, v, ns, e); !m.err && !m.updated
    ensures e.pvcName != "" && (v.cfg.kind ==> e.pvName != "")
  {
  }

  /** The volumes of an entry fail only when its claim cannot be had. */
  lemma VolumeFails(cfg: Config, c: Cluster, v: View, ns: string, e: PvcStatus)
    requires Active(cfg, c, v) && Linked(c, Labels(ns, v.node), e) && e.cond == Pending
    ensures ManageVolume(c, v, ns, e).err ==> e.pvcName == "" && (cfg.kind ==> e.pvName != "") && !Claimable(c, Labels(ns, v.node))
  {
    var l := Labels(ns, v.node);
    var name := UniqueName(cfg.cache, v.uid);
    var claim := ClaimName(cfg, e, v.uid);
    UniqueLookups(c, l);
    FreshUnique(cfg, c, v.uid);
    assert name !in c.pvs && ObjKey(ns, name) !in c.pvcs;
    if ObjKey(ns, claim) in c.pvcs {
      var pvc := c.pvcs[ObjKey(ns, claim)];
      assert pvc.labels.node != "" ==> Given(c, claim, pvc.labels);
      assert pvc.labels == l;
      assert ObjKey(ns, claim) in PvcMatches(c, l);
    }
  }

  lemma {:induction false} AllIdle(v: View, s: Loop, k: nat)
    requires k <= |v.cfg.namespaces| && !s.updated && !ModifyFrom(v, s, k).updated
    ensures forall j :: k <= j < |v.cfg.namespaces| ==> Idles(v, s, v.cfg.namespaces[j])
    decreases |v.cfg.namespaces| - k
  {
    if k < |v.cfg.namespaces| {
      var ns := v.cfg.namespaces[k];
      MustIdle(v, s, k);
      StepOver(v, s, k);
      var next := s.(cnts := CountsAfter(v, s, ns));
      AllIdle(v, next, k + 1);
      forall j | k < j < |v.cfg.namespaces| ensures Idles(v, s, v.cfg.namespaces[j]) {
        assert Idles(v, next, v.cfg.namespaces[j]);
      }
    }
  }

  lemma RestRank(cfg: Config, v: View, c: Cluster, entries: map<string, PvcStatus>)
    requires Active(cfg, c, v) && EntriesLinked(c, v.node, entries)
    requires !RunLoop(v, StartLoop(c, Some(entries))).updated
    ensures RankSum(c, cfg, v.node, entries) == 0
  {
    var s := StartLoop(c, Some(entries));
    AllIdle(v, s, 0);
    forall ns | ns in cfg.namespaces ensures Rank(c, cfg, v.node, entries, ns) == 0 {
      var j :| 0 <= j < |cfg.namespaces| && v.cfg.namespaces[j] == ns;
      IdleRank(cfg, v, s, ns);
    }
    SumBounded(ns => Rank(c, cfg, v.node, entries, ns), cfg.namespaces, 0);
  }

  /** The distance is exact: a pass writes if and only if its node is not at distance zero. */
  lemma WritesUntilZero(cfg: Config, w: World, i: nat, uid: string)
    requires Calm(cfg, w, i) && FreshUid(w.c.log, uid)
    ensures Writes(cfg, w, i, uid) <==> Distance(cfg, w, i) > 0
  {
    if !Placed(cfg, w, i) {
      UnplacedWrites(cfg, w, i, uid);
    } else {
      PassProgress(cfg, w, i, uid);
    }
    if !Writes(cfg, w, i, uid) {
      var nd := w.nodes[i].value;
      CalmView(cfg, w, i, uid);
      var v := NodeView(cfg, w, i, uid);
      Counts.UpdatedStays(v, StartLoop(w.c, None), 0);
      assert NodeLinked(cfg, w, i);
      RestRank(cfg, v, w.c, nd.listed.value);
      QuietCounts(cfg, w.c, v, nd);
    }
  }

  /** The extract Job of an entry, if one is listed. */
  ghost predicate IsJobOf(cfg: Config, w: World, i: nat, ns: string, k: ObjKey)
    requires i < |cfg.nodeNames| && HasEntry(w, i, ns)
  {
    k in w.c.jobs && k.ns == ns && w.c.jobs[k].node == cfg.nodeNames[i] && w.c.jobs[k].pvc == Entry(w, i, ns).pvcName
  }

  lemma RestIsRankless(cfg: Config, w: World, i: nat, uid: string, ns: string)
    requires Calm(cfg, w, i) && FreshUid(w.c.log, uid) && !Writes(cfg, w, i, uid) && ns in cfg.namespaces
    ensures HasEntry(w, i, ns) && EntryRank(w.c, cfg, cfg.nodeNames[i], ns, Entry(w, i, ns)) == 0
  {
    var nd := w.nodes[i].value;
    CalmView(cfg, w, i, uid);
    var v := NodeView(cfg, w, i, uid);
    Counts.UpdatedStays(v, StartLoop(w.c, None), 0);
    assert NodeLinked(cfg, w, i);
    var s := StartLoop(w.c, nd.listed);
    AllIdle(v, s, 0);
    var j :| 0 <= j < |cfg.namespaces| && v.cfg.namespaces[j] == ns;
    IdleRank(cfg, v, s, ns);
  }

  /**
   * At rest no outcome is left unrecorded: an entry that is past Pending says that the cache was downloaded if its Job has
   * reported success, and says Error if the Job has only failed.
   */
  lemma OutcomeIsRecorded(cfg: Config, w: World, i: nat, uid: string, ns: string, k: ObjKey)
    requires Calm(cfg, w, i) && FreshUid(w.c.log, uid) && !Writes(cfg, w, i, uid) && ns in cfg.namespaces
    requires HasEntry(w, i, ns) && Entry(w, i, ns).cond != Pending && IsJobOf(cfg, w, i, ns, k)
    ensures var cond := Entry(w, i, ns).cond;
            && (w.c.jobs[k].succeeded > 0 ==> cond in {Extracted, Running, Outdated})
            && (w.c.jobs[k].failed > 0 ==> cond in {Extracted, Running, Outdated, Error})
  {
    RestIsRankless(cfg, w, i, uid, ns);
    assert k in MatchingJobs(w.c, Labels(ns, cfg.nodeNames[i]), Entry(w, i, ns).pvcName);
  }

  /** At rest an entry says Running if the claim is in use on the node, and Extracted if not. */
  lemma UseIsRecorded(cfg: Config, w: World, i: nat, uid: string, ns: string)
    requires Calm(cfg, w, i) && FreshUid(w.c.log, uid) && !Writes(cfg, w, i, uid) && ns in cfg.namespaces
    requires HasEntry(w, i, ns) && Entry(w, i, ns).cond in {Extracted, Running} && Entry(w, i, ns).pvcName != ""
    ensures Entry(w, i, ns).cond == Running
            <==> cfg.cache != "" && exists p, v :: UsedBy(w.c.pods, cfg.nodeNames[i], ns, cfg.cache, p, v)
  {
    RestIsRankless(cfg, w, i, uid, ns);
    D.InUseExactly(w.c, cfg.nodeNames[i], ns, cfg.cache);
  }
}
