/**
 * With different namespaces an agent blanks the node name during teardown. For every configuration with two different
 * namespaces and a node there are runs from a fresh cluster in which teardown goes wrong, in three ways.
 */
module TwoNamespaces {
  import opened ApiTypes
  import opened Kube
  import opened Fleet
  import opened AgentSpec
  import OperatorSpec
  import opened Protocol
  import opened Invariants
  import opened Linkage
  import opened LinkProofs
  import opened Teardown
  import A = AgentFacts
  import AgentMoves
  import AgentProofs
  import C = Convergence
  import Counts
  import Sums
  import Theorems

  // ---------- Configurations ----------

  /** Namespace number `j` is the first that differs from namespace number 0, and there is a node. */
  ghost predicate Mixed(cfg: Config, j: nat) {
    && ValidConfig(cfg) && cfg.nodeNames != []
    && 0 < j < |cfg.namespaces| && cfg.namespaces[j] != cfg.namespaces[0]
    && forall m :: 0 <= m < j ==> cfg.namespaces[m] == cfg.namespaces[0]
  }

  lemma {:induction false} FirstOther(spaces: seq<string>, k: nat) returns (j: nat)
    requires k < |spaces| && spaces[k] != spaces[0]
    ensures 0 < j <= k && spaces[j] != spaces[0] && forall m :: 0 <= m < j ==> spaces[m] == spaces[0]
  {
    j := k;
    if m: nat :| m < k && spaces[m] != spaces[0] {
      j := FirstOther(spaces, m);
    }
  }

  lemma Mixes(cfg: Config) returns (j: nat)
    requires ValidConfig(cfg) && cfg.nodeNames != [] && !OneSpace(cfg)
    ensures Mixed(cfg, j)
  {
    var a, b :| a in cfg.namespaces && b in cfg.namespaces && a != b;
    var k: nat :| k < |cfg.namespaces| && cfg.namespaces[k] != cfg.namespaces[0];
    j := FirstOther(cfg.namespaces, k);
  }

  /** A random suffix longer than every name so far is fresh. */
  lemma {:induction false} LongerThanAll(names: set<string>) returns (n: nat)
    ensures forall s :: s in names ==> |s| <= n
  {
    n := 0;
    if s :| s in names {
      n := LongerThanAll(names - {s});
      n := if n < |s| then |s| else n;
    }
  }

  lemma FreshExists(log: Log) returns (uid: string)
    ensures FreshUid(log, uid)
  {
    var n := LongerThanAll(log.names.Keys);
    uid := seq(n + 1, _ => 'u');
  }

  lemma ReachableGood(cfg: Config, w: World)
    requires Reachable(cfg, w)
    ensures Good(cfg, w)
  {
    var ws, steps :| Run(cfg, ws, steps) && ws[|steps|] == w;
    RunGood(cfg, ws, steps, |steps|);
  }

  // ---------- The first node and its entries ----------

  ghost predicate Working(cfg: Config, w: World) {
    && cfg.nodeNames != [] && cfg.namespaces != []
    && !w.cache.gone && w.cache.owner == Agent && |w.nodes| == |cfg.nodeNames|
    && w.nodes[0].Some? && w.nodes[0].value.nodeName == cfg.nodeNames[0]
  }

  ghost function ViewOf(cfg: Config, w: World, uid: string): View
    requires Working(cfg, w)
  {
    NodeView(cfg, w, 0, uid)
  }

  ghost function EntryOf(cfg: Config, w: World, ns: string): PvcStatus
    requires Working(cfg, w)
  {
    if HasEntry(w, 0, ns) then Entry(w, 0, ns) else NewEntry(Agent)
  }

  /** The cluster and one entry of the first node after a pass. */
  ghost function Stored(cfg: Config, w: World, c: Cluster, ns: string, e: PvcStatus): World
    requires Working(cfg, w)
  {
    w.(c := c, nodes := w.nodes[0 := Some(w.nodes[0].value.(listed := Some(Holds(w.nodes[0])[ns := e])))])
  }

  /** The labels of the objects of the first node in the first namespace. */
  function Own(cfg: Config): Labels
    requires cfg.nodeNames != [] && cfg.namespaces != []
  {
    Labels(cfg.namespaces[0], cfg.nodeNames[0])
  }

  /** A live pass that changes the entry of the first namespace; its status write may be lost. */
  lemma FirstChanges(cfg: Config, w: World, uid: string, writeOk: bool)
    requires Working(cfg, w) && !w.cache.deleting
    requires var m := Modify(w.c, ViewOf(cfg, w, uid), cfg.namespaces[0], EntryOf(cfg, w, cfg.namespaces[0])); !m.err && m.updated
    ensures var m := Modify(w.c, ViewOf(cfg, w, uid), cfg.namespaces[0], EntryOf(cfg, w, cfg.namespaces[0]));
            AgentPass(cfg, w, 0, uid, writeOk)
            == if writeOk then Stored(cfg, w, m.c, cfg.namespaces[0], m.e) else w.(c := m.c)
  {
    var v, ns := ViewOf(cfg, w, uid), cfg.namespaces[0];
    var s := StartLoop(w.c, w.nodes[0].value.listed);
    assert ModifyFrom(v, s, 0).entries == s.entries[ns := Modify(w.c, v, ns, EntryOf(cfg, w, ns)).e];
    assert w.nodes[0 := w.nodes[0]] == w.nodes;
  }

  /** Namespaces whose entry cannot move are passed over. */
  lemma {:induction false} Skipped(cfg: Config, v: View, s: Loop, j: nat, k: nat)
    requires Mixed(cfg, j) && v.cfg == cfg && k <= j && cfg.namespaces[0] in s.entries
    requires Modify(s.c, v, cfg.namespaces[0], s.entries[cfg.namespaces[0]]).err
    ensures ModifyFrom(v, s, k) == ModifyFrom(v, s, j)
    decreases j - k
  {
    if k < j {
      SkippedOne(v, s, k);
      Skipped(cfg, v, s, j, k + 1);
    }
  }

  lemma SkippedOne(v: View, s: Loop, k: nat)
    requires k < |v.cfg.namespaces| && v.cfg.namespaces[k] in s.entries
    requires Modify(s.c, v, v.cfg.namespaces[k], s.entries[v.cfg.namespaces[k]]).err
    ensures ModifyFrom(v, s, k) == ModifyFrom(v, s, k + 1)
  {
    A.ModifyIdle(s.c, v, v.cfg.namespaces[k], s.entries[v.cfg.namespaces[k]]);
    assert s.(c := s.c, updated := s.updated) == s;
  }

  /** A live pass in which the first namespace is stuck and the other one gets its entry. */
  lemma SecondChanges(cfg: Config, w: World, uid: string, j: nat)
    requires Mixed(cfg, j) && Working(cfg, w) && !w.cache.deleting && HasEntry(w, 0, cfg.namespaces[0])
    requires Modify(w.c, ViewOf(cfg, w, uid), cfg.namespaces[0], EntryOf(cfg, w, cfg.namespaces[0])).err
    requires var m := Modify(w.c, ViewOf(cfg, w, uid), cfg.namespaces[j], EntryOf(cfg, w, cfg.namespaces[j])); !m.err && m.updated
    ensures var m := Modify(w.c, ViewOf(cfg, w, uid), cfg.namespaces[j], EntryOf(cfg, w, cfg.namespaces[j]));
            AgentPass(cfg, w, 0, uid, true) == Stored(cfg, w, m.c, cfg.namespaces[j], m.e)
  {
    var v, ns := ViewOf(cfg, w, uid), cfg.namespaces[j];
    var s := StartLoop(w.c, w.nodes[0].value.listed);
    Skipped(cfg, v, s, j, 0);
    assert ModifyFrom(v, s, j).entries == s.entries[ns := Modify(w.c, v, ns, EntryOf(cfg, w, ns)).e];
  }

  /** An attempt on the entry of the first namespace, made under the operator's empty node label. */
  lemma BlankAttempt(cfg: Config, w: World, uid: string, j: nat)
    requires Mixed(cfg, j) && Working(cfg, w) && w.cache.deleting
    requires HasEntry(w, 0, cfg.namespaces[0]) && HasEntry(w, 0, cfg.namespaces[j])
    requires var r := ManageDelete(w.c, EntryOf(cfg, w, cfg.namespaces[0]), Agent, Labels(cfg.namespaces[0], ""));
             !r.err && !r.inUse && !r.deleting
    ensures var a := cfg.namespaces[0];
            var r := ManageDelete(w.c, EntryOf(cfg, w, a), Agent, Labels(a, ""));
            var w' := AgentPass(cfg, w, 0, uid, true);
            && (r.updated ==> w' == Stored(cfg, w, r.c, a, r.e))
            && (!r.updated ==> w'.c == r.c && !HasEntry(w', 0, a))
  {
    var v, a := ViewOf(cfg, w, uid), cfg.namespaces[0];
    var s := StartLoop(w.c, w.nodes[0].value.listed);
    BlankScope(cfg, w, uid, j);
    var r := ManageDelete(w.c, EntryOf(cfg, w, a), Agent, Labels(a, ""));
    assert Release(w.c, v, Holds(w.nodes[0]), a) == Dropped(r.c, r.e, r.updated, false, false);
    assert ReleaseFrom(v, s, 0).updated && ReleaseFrom(v, s, 0).c == r.c;
  }

  lemma BlankScope(cfg: Config, w: World, uid: string, j: nat)
    requires Mixed(cfg, j) && Working(cfg, w)
    requires HasEntry(w, 0, cfg.namespaces[0]) && HasEntry(w, 0, cfg.namespaces[j])
    ensures DeleteScope(ViewOf(cfg, w, uid), Holds(w.nodes[0]), cfg.namespaces[0]) == Labels(cfg.namespaces[0], "")
  {
    var both := {cfg.namespaces[0], cfg.namespaces[j]};
    assert Holds(w.nodes[0]).Keys == both + (Holds(w.nodes[0]).Keys - both);
  }

  lemma AgentReaches(cfg: Config, w: World, uid: string, writeOk: bool)
    requires Reachable(cfg, w) && Working(cfg, w) && FreshUid(w.c.log, uid)
    ensures Reachable(cfg, AgentPass(cfg, w, 0, uid, writeOk))
  {
    Reaches(cfg, w, AgentStep(0, uid, writeOk));
  }

  // ---------- Set-up ----------

  /** A fresh cluster in which every workload namespace exists. */
  function Start(cfg: Config): World {
    var spaces := map ns | ns in cfg.namespaces :: false;
    var cluster := Cluster(map[], map[], map[], [], spaces, Log({}, {}, map[], 0, false));
    World(cluster, CacheObj(false, false, false, [ReadWriteOnce], Unknown, ZERO_COUNTS, None, map[]), seq(|cfg.nodeNames|, _ => None))
  }

  /** The cache object once the agents are recorded as owners; the operator holds off. */
  function Recorded(cfg: Config): CacheObj
    requires cfg.namespaces != []
  {
    CacheObj(false, true, false, [ReadWriteOnce], Agent, ZERO_COUNTS, Some(Pending), map[cfg.namespaces[0] := NewEntry(Operator)])
  }

  lemma {:induction false} NobodyCounts(nodes: seq<Option<CacheNode>>, count: nat)
    requires count <= |nodes| && forall i :: 0 <= i < |nodes| ==> nodes[i] == None
    ensures OperatorSpec.SumCounts(nodes, count) == ZERO_COUNTS
  {
    if count > 0 {
      NobodyCounts(nodes, count - 1);
    }
  }

  lemma RecordStep(cfg: Config)
    requires ValidConfig(cfg) && cfg.namespaces != []
    ensures Reachable(cfg, Start(cfg).(cache := Recorded(cfg)))
  {
    var w0 := Start(cfg);
    var w1 := w0.(cache := w0.cache.(finalizer := true));
    assert Run(cfg, [w0], []);
    Reaches(cfg, w0, OperatorStep("u", true));
    assert w1 == Apply(cfg, w0, OperatorStep("u", true));
    Reaches(cfg, w1, OperatorStep("u", true));
    FirstSight(cfg, w1);
  }

  lemma FirstSight(cfg: Config, w: World)
    requires ValidConfig(cfg) && cfg.namespaces != [] && w == Start(cfg).(cache := Start(cfg).cache.(finalizer := true))
    ensures OperatorSpec.OperatorPass(cfg, w, "u", true) == w.(cache := Recorded(cfg))
  {
    NobodyCounts(w.nodes, |w.nodes|);
    var st := OperatorSpec.StartStatus(w);
    var v := OperatorSpec.PassView(cfg, w, st, "u");
    var e := NewEntry(Operator);
    assert OperatorSpec.Modify(w.c, v, cfg.namespaces[0], e) == Managed(w.c, e, false, true, false);
    assert st == Recorded(cfg).(entries := map[]);
    assert st.entries[cfg.namespaces[0] := e] == Recorded(cfg).entries;
  }

  const NAMED := CacheNode(true, "", ZERO_COUNTS.(nodeCnt := 1), None)

  /** The first node is set up and lists nothing yet. */
  function Bare(cfg: Config): World
    requires cfg.namespaces != [] && cfg.nodeNames != []
  {
    var w := Start(cfg).(cache := Recorded(cfg));
    w.(nodes := w.nodes[0 := Some(NAMED.(nodeName := cfg.nodeNames[0]))])
  }

  lemma BareStep(cfg: Config)
    requires ValidConfig(cfg) && cfg.namespaces != [] && cfg.nodeNames != []
    ensures Reachable(cfg, Bare(cfg))
  {
    RecordStep(cfg);
    var w2, step := Start(cfg).(cache := Recorded(cfg)), AgentStep(0, "u", true);
    var w3 := w2.(nodes := w2.nodes[0 := Some(NEW_NODE)]);
    var w4 := w2.(nodes := w2.nodes[0 := Some(NEW_NODE.(finalizer := true))]);
    Reaches(cfg, w2, step);
    assert w3 == Apply(cfg, w2, step);
    Reaches(cfg, w3, step);
    assert w4 == Apply(cfg, w3, step);
    Reaches(cfg, w4, step);
    assert Bare(cfg) == Apply(cfg, w4, step);
  }

  // ---------- A claim in the first namespace ----------

  /** A live cache nobody serves yet, in a cluster without pods where every workload namespace is open. */
  ghost predicate Base(cfg: Config, w: World) {
    && Reachable(cfg, w) && ValidConfig(cfg) && Working(cfg, w) && w.cache == Recorded(cfg)
    && w.c.pods == [] && w.c.spaces == Start(cfg).c.spaces && !ServingExists(w.c)
  }

  /** The first entry waits for its Job; its volumes are recorded and live. */
  ghost predicate Claimed(cfg: Config, w: World) {
    && Base(cfg, w) && HasEntry(w, 0, cfg.namespaces[0])
    && var e := EntryOf(cfg, w, cfg.namespaces[0]);
       var k := ObjKey(cfg.namespaces[0], e.pvcName);
       && e == PvcStatus(e.pvName, e.pvcName, "", Agent, Pending) && e.pvcName != "" && (cfg.kind <==> e.pvName != "")
       && k in w.c.pvcs && w.c.pvcs[k] == Pvc(Own(cfg), false)
       && (cfg.kind ==> e.pvName in w.c.pvs && w.c.pvs[e.pvName] == Pv(Own(cfg), false))
  }

  lemma PvMade(cfg: Config, c: Cluster, v: View)
    requires cfg.nodeNames != [] && cfg.namespaces != [] && cfg.kind && v.cfg == cfg && v.owner == Agent && v.node == cfg.nodeNames[0]
    requires c.pvs == map[]
    ensures var name := UniqueName(cfg.cache, v.uid);
            Modify(c, v, cfg.namespaces[0], NewEntry(Agent)) == Changed(AddPv(c, name, Own(cfg)), NewEntry(Agent).(pvName := name))
  {
    assert PvMatches(c, Own(cfg)) == {};
  }

  /** With a PV to be provisioned by hand the first pass creates it. */
  lemma PvStep(cfg: Config) returns (w: World)
    requires ValidConfig(cfg) && cfg.namespaces != [] && cfg.nodeNames != [] && cfg.kind
    ensures Base(cfg, w) && w.c.pvcs == map[] && w.c.jobs == map[] && HasEntry(w, 0, cfg.namespaces[0])
    ensures var e := EntryOf(cfg, w, cfg.namespaces[0]);
            && e == NewEntry(Agent).(pvName := e.pvName) && e.pvName != ""
            && e.pvName in w.c.pvs && w.c.pvs[e.pvName] == Pv(Own(cfg), false)
    ensures Holds(w.nodes[0]).Keys == {cfg.namespaces[0]}
  {
    var w0, a := Bare(cfg), cfg.namespaces[0];
    BareStep(cfg);
    var uid := FreshExists(w0.c.log);
    var name := UniqueName(cfg.cache, uid);
    var e := NewEntry(Agent).(pvName := name);
    PvMade(cfg, w0.c, ViewOf(cfg, w0, uid));
    FirstChanges(cfg, w0, uid, true);
    AgentReaches(cfg, w0, uid, true);
    w := Stored(cfg, w0, AddPv(w0.c, name, Own(cfg)), a, e);
    assert w.c.pvs.Keys == {name};
  }

  lemma ClaimMade(cfg: Config, c: Cluster, v: View, e: PvcStatus)
    requires cfg.nodeNames != [] && cfg.namespaces != [] && v.cfg == cfg && v.owner == Agent && v.node == cfg.nodeNames[0]
    requires c.pvcs == map[] && Open(c, cfg.namespaces[0])
    requires e == NewEntry(Agent).(pvName := e.pvName) && (cfg.kind <==> e.pvName != "")
    ensures var name := ClaimName(cfg, e, v.uid);
            Modify(c, v, cfg.namespaces[0], e) == Changed(AddPvc(c, name, Own(cfg)), e.(pvcName := name))
  {
    assert PvcMatches(c, Own(cfg)) == {};
  }

  lemma PvcStep(cfg: Config, w: World) returns (w': World)
    requires Base(cfg, w) && w.c.pvcs == map[] && w.c.jobs == map[] && Holds(w.nodes[0]).Keys <= {cfg.namespaces[0]}
    requires var e := EntryOf(cfg, w, cfg.namespaces[0]);
             && e == NewEntry(Agent).(pvName := e.pvName) && (cfg.kind <==> e.pvName != "")
             && (cfg.kind ==> e.pvName in w.c.pvs && w.c.pvs[e.pvName] == Pv(Own(cfg), false))
    ensures Claimed(cfg, w') && w'.c.jobs == map[] && Holds(w'.nodes[0]).Keys == {cfg.namespaces[0]}
  {
    var a, e := cfg.namespaces[0], EntryOf(cfg, w, cfg.namespaces[0]);
    var uid := FreshExists(w.c.log);
    var name := ClaimName(cfg, e, uid);
    var e' := e.(pvcName := name);
    ClaimMade(cfg, w.c, ViewOf(cfg, w, uid), e);
    FirstChanges(cfg, w, uid, true);
    AgentReaches(cfg, w, uid, true);
    w' := Stored(cfg, w, AddPvc(w.c, name, Own(cfg)), a, e');
    assert w'.c.pvcs.Keys == {ObjKey(a, name)};
  }

  lemma ClaimStep(cfg: Config) returns (w: World)
    requires ValidConfig(cfg) && cfg.namespaces != [] && cfg.nodeNames != []
    ensures Claimed(cfg, w) && w.c.jobs == map[] && Holds(w.nodes[0]).Keys == {cfg.namespaces[0]}
  {
    if cfg.kind {
      w := PvStep(cfg);
    } else {
      w := Bare(cfg);
      BareStep(cfg);
    }
    w := PvcStep(cfg, w);
  }

  // ---------- A Job whose launch was not recorded ----------

  /** All Jobs are live extract Jobs of the first node in the first namespace, and there is one for the recorded claim. */
  ghost predicate JobRuns(cfg: Config, c: Cluster, claim: string)
    requires cfg.nodeNames != [] && cfg.namespaces != []
  {
    && (forall k :: k in c.jobs ==> k.ns == Own(cfg).ns && c.jobs[k].node == Own(cfg).node && !c.jobs[k].terminating)
    && MatchingJobs(c, Own(cfg), claim) != {}
  }

  /** The agent launches the Job, and its status write is lost. */
  lemma LostLaunch(cfg: Config, w: World) returns (w': World)
    requires Claimed(cfg, w) && w.c.jobs == map[]
    ensures Claimed(cfg, w') && w'.nodes == w.nodes && JobRuns(cfg, w'.c, EntryOf(cfg, w', cfg.namespaces[0]).pvcName)
  {
    var a, e := cfg.namespaces[0], EntryOf(cfg, w, cfg.namespaces[0]);
    var uid := FreshExists(w.c.log);
    var name := e.pvcName + "-job-download-" + uid;
    var c := AddJob(w.c, name, Own(cfg), e.pvcName, Agent);
    assert MatchingJobs(w.c, Own(cfg), e.pvcName) == {};
    assert Modify(w.c, ViewOf(cfg, w, uid), a, e) == Changed(c, e.(cond := Downloading));
    FirstChanges(cfg, w, uid, false);
    AgentReaches(cfg, w, uid, false);
    w' := w.(c := c);
    assert ObjKey(a, name) in MatchingJobs(c, Own(cfg), e.pvcName);
  }

  /** What a change for another namespace leaves alone. */
  ghost predicate Kept(c: Cluster, d: Cluster) {
    && d.pods == c.pods && d.spaces == c.spaces && d.jobs == c.jobs
    && (forall k :: k in c.pvcs ==> k in d.pvcs && d.pvcs[k] == c.pvcs[k])
    && (forall n :: n in c.pvs ==> n in d.pvs && d.pvs[n] == c.pvs[n])
  }

  lemma EnsureKeepsAll(c: Cluster, kind: bool, e: PvcStatus, l: Labels, pvName: string, pvcName: string)
    ensures Kept(c, EnsureVolume(c, kind, e, l, pvName, pvcName).c)
  {
  }

  lemma StuckPending(cfg: Config, w: World, uid: string)
    requires Claimed(cfg, w) && JobRuns(cfg, w.c, EntryOf(cfg, w, cfg.namespaces[0]).pvcName)
    ensures Modify(w.c, ViewOf(cfg, w, uid), cfg.namespaces[0], EntryOf(cfg, w, cfg.namespaces[0])).err
  {
  }

  lemma BaseActive(cfg: Config, w: World, uid: string)
    requires Base(cfg, w) && FreshUid(w.c.log, uid)
    ensures C.Active(cfg, w.c, ViewOf(cfg, w, uid)) && C.Calm(cfg, w, 0)
  {
    ReachableGood(cfg, w);
  }

  lemma NewVolume(cfg: Config, c: Cluster, v: View, ns: string) returns (m: Managed)
    requires C.Active(cfg, c, v) && Open(c, ns)
    ensures m == Modify(c, v, ns, NewEntry(Agent)) && !m.err && m.updated && Kept(c, m.c)
  {
    C.NewEntrySucceeds(cfg, c, v, ns);
    m := Modify(c, v, ns, NewEntry(Agent));
    EnsureKeepsAll(c, cfg.kind, NewEntry(Agent), Labels(ns, v.node), UniqueName(cfg.cache, v.uid),
                   ClaimName(cfg, NewEntry(Agent), v.uid));
  }

  /** The other namespace gets its entry: its first volume is created. */
  lemma OtherEntry(cfg: Config, w: World, uid: string, ns: string) returns (m: Managed)
    requires Base(cfg, w) && ns in cfg.namespaces && FreshUid(w.c.log, uid)
    ensures m == Modify(w.c, ViewOf(cfg, w, uid), ns, NewEntry(Agent)) && !m.err && m.updated && Kept(w.c, m.c)
  {
    BaseActive(cfg, w, uid);
    m := NewVolume(cfg, w.c, ViewOf(cfg, w, uid), ns);
  }

  lemma SecondEntry(cfg: Config, j: nat, w: World) returns (w': World)
    requires Mixed(cfg, j) && Claimed(cfg, w) && Holds(w.nodes[0]).Keys == {cfg.namespaces[0]}
    requires JobRuns(cfg, w.c, EntryOf(cfg, w, cfg.namespaces[0]).pvcName)
    ensures Claimed(cfg, w') && HasEntry(w', 0, cfg.namespaces[j])
    ensures JobRuns(cfg, w'.c, EntryOf(cfg, w', cfg.namespaces[0]).pvcName)
  {
    var b := cfg.namespaces[j];
    var uid := FreshExists(w.c.log);
    var m := OtherEntry(cfg, w, uid, b);
    StuckPending(cfg, w, uid);
    assert EntryOf(cfg, w, b) == NewEntry(Agent);
    SecondChanges(cfg, w, uid, j);
    AgentReaches(cfg, w, uid, true);
    StillUnserved(cfg, w, uid);
    w' := Stored(cfg, w, m.c, b, m.e);
    SecondKept(cfg, w, m, b, w', uid);
  }

  /** No live pass of an agent makes a volume of the operator. */
  lemma StillUnserved(cfg: Config, w: World, uid: string)
    requires Base(cfg, w) && FreshUid(w.c.log, uid)
    ensures !ServingExists(AgentPass(cfg, w, 0, uid, true).c)
  {
    ReachableGood(cfg, w);
    if ServingExists(AgentPass(cfg, w, 0, uid, true).c) {
      Theorems.AgentServes(cfg, w, 0, uid, true);
    }
  }

  lemma SecondKept(cfg: Config, w: World, m: Managed, b: string, w': World, uid: string)
    requires Claimed(cfg, w) && Kept(w.c, m.c) && b != cfg.namespaces[0] && FreshUid(w.c.log, uid)
    requires JobRuns(cfg, w.c, EntryOf(cfg, w, cfg.namespaces[0]).pvcName)
    requires w' == Stored(cfg, w, m.c, b, m.e) && Reachable(cfg, w') && !ServingExists(w'.c)
    ensures Claimed(cfg, w') && JobRuns(cfg, w'.c, EntryOf(cfg, w', cfg.namespaces[0]).pvcName)
  {
    var claim := EntryOf(cfg, w, cfg.namespaces[0]).pvcName;
    assert MatchingJobs(w'.c, Own(cfg), claim) == MatchingJobs(w.c, Own(cfg), claim);
  }

  // ---------- Teardown ----------

  /** Two entries of a deleting cache, in a cluster without pods where nothing carries the operator's labels. */
  ghost predicate Doomed(cfg: Config, j: nat, w: World) {
    && Mixed(cfg, j) && Reachable(cfg, w) && Working(cfg, w) && w.cache.deleting && w.c.pods == []
    && HasEntry(w, 0, cfg.namespaces[0]) && HasEntry(w, 0, cfg.namespaces[j])
  }

  lemma Deleted(cfg: Config, j: nat, w: World) returns (w': World)
    requires Mixed(cfg, j) && Reachable(cfg, w) && Working(cfg, w) && w.cache.finalizer && w.c.pods == []
    requires HasEntry(w, 0, cfg.namespaces[0]) && HasEntry(w, 0, cfg.namespaces[j])
    ensures Doomed(cfg, j, w') && w' == w.(cache := w.cache.(deleting := true))
  {
    Reaches(cfg, w, DeleteStep);
    w' := Apply(cfg, w, DeleteStep);
  }

  ghost function Next(cfg: Config, w: World, uid: string): World
    requires Working(cfg, w)
  {
    AgentPass(cfg, w, 0, uid, true)
  }

  /** A pass that changes the first entry. */
  lemma Attempted(cfg: Config, j: nat, w: World, uid: string, r: Removal)
    requires Doomed(cfg, j, w) && FreshUid(w.c.log, uid) && r.updated
    requires r == ManageDelete(w.c, EntryOf(cfg, w, cfg.namespaces[0]), Agent, Labels(cfg.namespaces[0], ""))
    requires r.c.pods == []
    ensures Next(cfg, w, uid) == Stored(cfg, w, r.c, cfg.namespaces[0], r.e) && Doomed(cfg, j, Next(cfg, w, uid))
  {
    ManageDeleteQuiet(w.c, EntryOf(cfg, w, cfg.namespaces[0]), Agent, Labels(cfg.namespaces[0], ""));
    BlankAttempt(cfg, w, uid, j);
    AgentReaches(cfg, w, uid, true);
  }

  ghost function Marked(c: Cluster, k: ObjKey): Cluster
    requires k in c.pvcs
  {
    c.(pvcs := c.pvcs[k := c.pvcs[k].(terminating := true)])
  }

  /** A recorded live claim is deleted when no Job is recorded and none has the operator's labels. */
  lemma RecordedMarked(cfg: Config, j: nat, w: World, uid: string)
    requires Doomed(cfg, j, w) && FreshUid(w.c.log, uid)
    requires var e := EntryOf(cfg, w, cfg.namespaces[0]);
             && e.jobName == "" && e.pvcName != "" && e.owner == Agent
             && MatchingJobs(w.c, Labels(cfg.namespaces[0], ""), e.pvcName) == {}
    requires var k := ObjKey(cfg.namespaces[0], EntryOf(cfg, w, cfg.namespaces[0]).pvcName); k in w.c.pvcs && !w.c.pvcs[k].terminating
    ensures var a, e := cfg.namespaces[0], EntryOf(cfg, w, cfg.namespaces[0]);
            && Next(cfg, w, uid) == Stored(cfg, w, Marked(w.c, ObjKey(a, e.pvcName)), a, e.(pvcName := ""))
            && Doomed(cfg, j, Next(cfg, w, uid)) && PvcMarked(w.c, Next(cfg, w, uid).c, ObjKey(a, e.pvcName))
  {
    var e := EntryOf(cfg, w, cfg.namespaces[0]);
    Attempted(cfg, j, w, uid, Skip(Marked(w.c, ObjKey(cfg.namespaces[0], e.pvcName)), e.(pvcName := "")).(updated := true));
  }

  /** Up to the claim of the first namespace: it is recorded, and its Job runs without being recorded. */
  ghost predicate Waiting(cfg: Config, j: nat, w: World) {
    && Doomed(cfg, j, w) && !ServingExists(w.c)
    && var e := EntryOf(cfg, w, cfg.namespaces[0]);
       && e == PvcStatus(e.pvName, e.pvcName, "", Agent, Pending)
       && JobsLabelled(cfg, w.c)
       && (e.pvName != "" ==> e.pvName in w.c.pvs && w.c.pvs[e.pvName] == Pv(Own(cfg), false))
  }

  /** A Job of the first node runs in the first namespace, and there is a claim so labelled; no Job is the operator's. */
  ghost predicate JobsLabelled(cfg: Config, c: Cluster)
    requires cfg.nodeNames != [] && cfg.namespaces != []
  {
    && !JobGone(c, Own(cfg)) && PvcMatches(c, Own(cfg)) != {}
    && forall k :: k in c.jobs ==> c.jobs[k].node != ""
  }

  lemma WaitStep(cfg: Config, j: nat) returns (w: World)
    requires Mixed(cfg, j)
    ensures Waiting(cfg, j, w)
    ensures var e := EntryOf(cfg, w, cfg.namespaces[0]);
            var k := ObjKey(cfg.namespaces[0], e.pvcName);
            e.pvcName != "" && k in w.c.pvcs && w.c.pvcs[k] == Pvc(Own(cfg), false) && (cfg.kind <==> e.pvName != "")
  {
    w := ClaimStep(cfg);
    w := LostLaunch(cfg, w);
    w := SecondEntry(cfg, j, w);
    var e := EntryOf(cfg, w, cfg.namespaces[0]);
    var job :| job in MatchingJobs(w.c, Own(cfg), e.pvcName);
    assert !w.c.jobs[job].terminating;
    assert ObjKey(cfg.namespaces[0], e.pvcName) in PvcMatches(w.c, Own(cfg));
    w := Deleted(cfg, j, w);
  }

  /** The claim is deleted although the Job that extracts into it runs. */
  lemma ClaimTooEarly(cfg: Config, j: nat) returns (w: World, uid: string, k: ObjKey)
    requires Mixed(cfg, j)
    ensures Waiting(cfg, j, w) && FreshUid(w.c.log, uid) && PvcMarked(w.c, Next(cfg, w, uid).c, k)
    ensures w.c.pvcs[k].labels == Own(cfg) && !JobGone(w.c, Own(cfg))
    ensures Waiting(cfg, j, Next(cfg, w, uid)) && EntryOf(cfg, Next(cfg, w, uid), cfg.namespaces[0]).pvcName == ""
    ensures cfg.kind <==> EntryOf(cfg, Next(cfg, w, uid), cfg.namespaces[0]).pvName != ""
  {
    w := WaitStep(cfg, j);
    var e := EntryOf(cfg, w, cfg.namespaces[0]);
    k := ObjKey(cfg.namespaces[0], e.pvcName);
    uid := FreshExists(w.c.log);
    assert MatchingJobs(w.c, Labels(cfg.namespaces[0], ""), e.pvcName) == {};
    RecordedMarked(cfg, j, w, uid);
    MarkedWaits(cfg, w.c, k);
  }

  lemma MarkedWaits(cfg: Config, c: Cluster, k: ObjKey)
    requires cfg.nodeNames != [] && cfg.namespaces != [] && k in c.pvcs && JobsLabelled(cfg, c) && !ServingExists(c)
    ensures JobsLabelled(cfg, Marked(c, k)) && !ServingExists(Marked(c, k))
  {
    var d := Marked(c, k);
    var claim :| claim in PvcMatches(c, Own(cfg));
    assert claim in PvcMatches(d, Own(cfg));
    var job :| job in c.jobs && job.ns == Own(cfg).ns && c.jobs[job].node == Own(cfg).node && !c.jobs[job].terminating;
    assert job in d.jobs;
  }

  /** With claim and Job out of sight, the PV is deleted although both are still there. */
  lemma PvTooEarly(cfg: Config, j: nat) returns (w: World, uid: string, n: string)
    requires Mixed(cfg, j) && cfg.kind
    ensures Waiting(cfg, j, w) && FreshUid(w.c.log, uid) && PvMarked(w.c, Next(cfg, w, uid).c, n)
    ensures w.c.pvs[n].labels == Own(cfg)
    ensures var w' := Next(cfg, w, uid);
            && Waiting(cfg, j, w')
            && EntryOf(cfg, w', cfg.namespaces[0]).pvcName == "" == EntryOf(cfg, w', cfg.namespaces[0]).pvName
  {
    var before, first, k := ClaimTooEarly(cfg, j);
    w := Next(cfg, before, first);
    var a, e := cfg.namespaces[0], EntryOf(cfg, w, cfg.namespaces[0]);
    n := e.pvName;
    uid := FreshExists(w.c.log);
    PvNext(w.c, e, Labels(a, ""));
    var d := w.c.(pvs := w.c.pvs[n := w.c.pvs[n].(terminating := true)]);
    Attempted(cfg, j, w, uid, Skip(d, e.(pvName := "")).(updated := true));
  }

  /** Nothing is found under labels that nothing carries, so a recorded PV is next. */
  lemma PvNext(c: Cluster, e: PvcStatus, l: Labels)
    requires e.jobName == "" == e.pvcName && e.owner == Agent
    requires l.node == "" && !ServingExists(c) && forall k :: k in c.jobs ==> c.jobs[k].node != ""
    ensures e.pvName != "" && e.pvName in c.pvs && !c.pvs[e.pvName].terminating ==>
              var d := c.(pvs := c.pvs[e.pvName := c.pvs[e.pvName].(terminating := true)]);
              ManageDelete(c, e, Agent, l) == Skip(d, e.(pvName := "")).(updated := true)
    ensures e.pvName == "" ==> ManageDelete(c, e, Agent, l) == Skip(c, e)
  {
    assert MatchingJobs(c, l, "") == {};
    assert PvcMatches(c, l) == {};
    assert PvMatches(c, l) == {};
  }

  /** The entry is dropped although a claim labelled for it is still there, and even its Job. */
  lemma DroppedTooEarly(cfg: Config, j: nat) returns (w: World, uid: string)
    requires Mixed(cfg, j)
    ensures Waiting(cfg, j, w) && FreshUid(w.c.log, uid) && !HasEntry(Next(cfg, w, uid), 0, cfg.namespaces[0])
    ensures PvcMatches(w.c, Own(cfg)) != {}
  {
    var before, first, k := ClaimTooEarly(cfg, j);
    w := Next(cfg, before, first);
    if cfg.kind {
      var before', second, n := PvTooEarly(cfg, j);
      w := Next(cfg, before', second);
    }
    uid := FreshExists(w.c.log);
    PvNext(w.c, EntryOf(cfg, w, cfg.namespaces[0]), Labels(cfg.namespaces[0], ""));
    BlankAttempt(cfg, w, uid, j);
  }

  // ---------- A served cache ----------

  /** The first namespace has been extracted; its claim and its Job are recorded. */
  ghost predicate Extracts(cfg: Config, w: World) {
    && Base(cfg, w) && HasEntry(w, 0, cfg.namespaces[0])
    && var e := EntryOf(cfg, w, cfg.namespaces[0]);
       && e.owner == Agent && (e.cond == Extracted || e.cond == Running) && e.jobName != "" && e.pvcName != ""
       && FirstObjects(cfg, w.c, e)
  }

  /** The recorded claim is there and live; the recorded Job is live if it is there. */
  ghost predicate FirstObjects(cfg: Config, c: Cluster, e: PvcStatus)
    requires cfg.nodeNames != [] && cfg.namespaces != []
  {
    var k, job := ObjKey(cfg.namespaces[0], e.pvcName), ObjKey(cfg.namespaces[0], e.jobName);
    && k in c.pvcs && c.pvcs[k] == Pvc(Own(cfg), false)
    && (job in c.jobs ==> !c.jobs[job].terminating)
  }

  /** The agent launches the Job and records it. */
  lemma LaunchStep(cfg: Config, w: World) returns (w': World, job: ObjKey)
    requires Claimed(cfg, w) && w.c.jobs == map[]
    ensures Base(cfg, w') && HasEntry(w', 0, cfg.namespaces[0]) && job.name != "" && job.ns == cfg.namespaces[0]
    ensures var e := EntryOf(cfg, w', cfg.namespaces[0]);
            && e == PvcStatus(e.pvName, e.pvcName, "", Agent, Downloading) && e.pvcName != "" && FirstObjects(cfg, w'.c, e)
            && w'.c.jobs == map[job := Job(cfg.nodeNames[0], e.pvcName, w.c.log.clock, false, 0, 0, 0)]
  {
    var a, e := cfg.namespaces[0], EntryOf(cfg, w, cfg.namespaces[0]);
    var uid := FreshExists(w.c.log);
    var name := e.pvcName + "-job-download-" + uid;
    var c := AddJob(w.c, name, Own(cfg), e.pvcName, Agent);
    assert MatchingJobs(w.c, Own(cfg), e.pvcName) == {};
    assert Modify(w.c, ViewOf(cfg, w, uid), a, e) == Changed(c, e.(cond := Downloading));
    FirstChanges(cfg, w, uid, true);
    AgentReaches(cfg, w, uid, true);
    w', job := Stored(cfg, w, c, a, e.(cond := Downloading)), ObjKey(a, name);
    assert ObjKey(a, "") !in c.jobs;
  }

  /** The Job succeeds. */
  lemma SucceedStep(cfg: Config, w: World, job: ObjKey) returns (w': World)
    requires Base(cfg, w) && job in w.c.jobs && w.c.jobs == map[job := w.c.jobs[job]] && !w.c.jobs[job].terminating
    ensures Base(cfg, w') && w'.nodes == w.nodes && w'.c.pvcs == w.c.pvcs
    ensures w'.c.jobs == map[job := w.c.jobs[job].(succeeded := 1)]
  {
    var l := Labels(job.ns, w.c.jobs[job].node);
    var d := w.c.(jobs := map[job := w.c.jobs[job].(succeeded := 1)], log := w.c.log.(succeeded := w.c.log.succeeded + {l}));
    assert job in d.jobs && d.jobs[job].succeeded > 0;
    assert Drift(w.c, d);
    Reaches(cfg, w, DriftStep(d));
    w' := w.(c := d);
  }

  lemma FollowStep(cfg: Config, w: World, job: ObjKey) returns (w': World)
    requires Base(cfg, w) && HasEntry(w, 0, cfg.namespaces[0]) && job.ns == cfg.namespaces[0] && job.name != ""
    requires job in w.c.jobs && w.c.jobs == map[job := w.c.jobs[job]]
    requires var e := EntryOf(cfg, w, cfg.namespaces[0]);
             && e == PvcStatus(e.pvName, e.pvcName, "", Agent, Downloading) && e.pvcName != "" && FirstObjects(cfg, w.c, e)
             && JobMatches(w.c.jobs[job], Own(cfg), e.pvcName) && w.c.jobs[job].succeeded > 0 && !w.c.jobs[job].terminating
    ensures Extracts(cfg, w')
  {
    var a, e := cfg.namespaces[0], EntryOf(cfg, w, cfg.namespaces[0]);
    var uid := FreshExists(w.c.log);
    var e' := e.(jobName := job.name, cond := Extracted);
    assert MatchingJobs(w.c, Own(cfg), e.pvcName) == {job};
    assert Modify(w.c, ViewOf(cfg, w, uid), a, e) == Changed(w.c, e');
    FirstChanges(cfg, w, uid, true);
    AgentReaches(cfg, w, uid, true);
    w' := Stored(cfg, w, w.c, a, e');
  }

  lemma ExtractStep(cfg: Config) returns (w: World)
    requires ValidConfig(cfg) && cfg.namespaces != [] && cfg.nodeNames != []
    ensures Extracts(cfg, w)
  {
    w := ClaimStep(cfg);
    var job;
    w, job := LaunchStep(cfg, w);
    w := SucceedStep(cfg, w, job);
    w := FollowStep(cfg, w, job);
  }

  // ---------- The agent settles ----------

  /** What a live pass of an agent does to the objects: none goes or starts to terminate. */
  ghost predicate Lively(c: Cluster, d: Cluster) {
    && d.pods == c.pods && d.spaces == c.spaces
    && (forall k :: k in c.pvcs ==> k in d.pvcs && d.pvcs[k] == c.pvcs[k])
    && (forall k :: k in d.jobs && d.jobs[k].terminating ==> k in c.jobs && c.jobs[k].terminating)
  }

  lemma ModifyLively(c: Cluster, v: View, ns: string, e: PvcStatus)
    requires !Modify(c, v, ns, e).err
    ensures Lively(c, Modify(c, v, ns, e).c)
  {
    var move := AgentMoves.ModifyMove(c, v, ns, e);
    EnsureKeepsAll(c, v.cfg.kind, e, Labels(ns, v.node), UniqueName(v.cfg.cache, v.uid), ClaimName(v.cfg, e, v.uid));
  }

  /** An entry that was extracted is left alone, but for the flip between in use and not. */
  lemma ExtractedStays(c: Cluster, v: View, ns: string, e: PvcStatus)
    requires v.owner == Agent && (e.cond == Extracted || e.cond == Running)
    ensures Modify(c, v, ns, e) == Idle(c, e)
  {
  }

  /** Whatever a live pass does, the first entry and its objects stay. */
  lemma FirstStays(cfg: Config, w: World, uid: string, p: Pass, x: A.Effect)
    requires Extracts(cfg, w) && A.Did(ViewOf(cfg, w, uid), w.c, w.nodes[0].value, p, x)
    ensures Lively(w.c, p.c) && p.nd.nodeName == w.nodes[0].value.nodeName
    ensures var a := cfg.namespaces[0];
            && p.nd.listed.Some? && a in p.nd.listed.value
            && Flipped(EntryOf(cfg, w, a), p.nd.listed.value[a])
  {
    var v, nd := ViewOf(cfg, w, uid), w.nodes[0].value;
    if x.Modified? {
      var e := A.EntryOr(v, A.Held(nd), x.ns);
      ModifyLively(w.c, v, x.ns, e);
      if x.ns == cfg.namespaces[0] {
        ExtractedStays(w.c, v, x.ns, e);
      }
    }
  }

  ghost predicate Flipped(e: PvcStatus, e': PvcStatus) {
    e' == e.(cond := e'.cond) && (e'.cond == Extracted || e'.cond == Running)
  }

  lemma NextIs(cfg: Config, w: World, uid: string)
    requires Working(cfg, w)
    ensures Next(cfg, w, uid) == AgentProofs.Put(w, 0, PassBody(ViewOf(cfg, w, uid), w.c, w.nodes[0].value, true))
  {
  }

  lemma ExtractsStill(cfg: Config, w: World, p: Pass, w': World)
    requires Extracts(cfg, w) && w' == AgentProofs.Put(w, 0, p) && Reachable(cfg, w') && !ServingExists(w'.c)
    requires Lively(w.c, p.c) && p.nd.nodeName == w.nodes[0].value.nodeName
    requires p.nd.listed.Some? && cfg.namespaces[0] in p.nd.listed.value
    requires Flipped(EntryOf(cfg, w, cfg.namespaces[0]), p.nd.listed.value[cfg.namespaces[0]])
    ensures Extracts(cfg, w')
  {
    assert EntryOf(cfg, w', cfg.namespaces[0]) == p.nd.listed.value[cfg.namespaces[0]];
  }

  /** One more pass of the agent. */
  lemma SettleStep(cfg: Config, w: World, uid: string)
    requires Extracts(cfg, w) && FreshUid(w.c.log, uid)
    ensures Extracts(cfg, Next(cfg, w, uid))
  {
    var v, nd := ViewOf(cfg, w, uid), w.nodes[0].value;
    var p := PassBody(v, w.c, nd, true);
    var x := A.BodyEffect(v, w.c, nd, true);
    AgentReaches(cfg, w, uid, true);
    StillUnserved(cfg, w, uid);
    FirstStays(cfg, w, uid, p, x);
    NextIs(cfg, w, uid);
    ExtractsStill(cfg, w, p, Next(cfg, w, uid));
  }

  lemma {:induction false} Settle(cfg: Config, w: World) returns (w': World)
    requires Extracts(cfg, w)
    ensures Extracts(cfg, w') && C.Distance(cfg, w', 0) == 0
    decreases C.Distance(cfg, w, 0)
  {
    w' := w;
    if C.Distance(cfg, w, 0) > 0 {
      var uid := FreshExists(w.c.log);
      BaseActive(cfg, w, uid);
      AllOpen(cfg, w);
      C.WritesUntilZero(cfg, w, 0, uid);
      C.PassProgress(cfg, w, 0, uid);
      SettleStep(cfg, w, uid);
      w' := Settle(cfg, Next(cfg, w, uid));
    }
  }

  lemma AllOpen(cfg: Config, w: World)
    requires Base(cfg, w)
    ensures C.Placed(cfg, w, 0)
  {
    forall ns | ns in cfg.namespaces ensures C.HasPlace(cfg, w, 0, ns) {
      assert Open(w.c, ns);
    }
  }

  // ---------- What rest means ----------

  /** At rest the first entry is extracted, and the other namespace has its entry. */
  lemma RestEntries(cfg: Config, w: World, ns: string)
    requires Extracts(cfg, w) && C.Distance(cfg, w, 0) == 0 && ns in cfg.namespaces
    ensures HasEntry(w, 0, ns) && !(Entry(w, 0, ns).cond in {Running, Deleting})
  {
    var node, held := cfg.nodeNames[0], A.Held(w.nodes[0].value);
    if C.Rank(w.c, cfg, node, held, ns) > 0 {
      Sums.SumStrictlyBelow(n => 0, n => C.Rank(w.c, cfg, node, held, n), cfg.namespaces, ns);
    }
    assert C.Rank(w.c, cfg, node, held, ns) == 0;
  }

  lemma RestCounts(cfg: Config, w: World)
    requires Extracts(cfg, w) && C.Distance(cfg, w, 0) == 0
    ensures OperatorSpec.Lists(w.nodes[0]) && w.nodes[0].value.counts.nodeNotInUse == 1
  {
    var a, held := cfg.namespaces[0], A.Held(w.nodes[0].value);
    RestEntries(cfg, w, a);
    assert Counts.Has(held, cfg.namespaces[0], {Extracted});
    forall i | 0 <= i < |cfg.namespaces| ensures !Counts.Has(held, cfg.namespaces[i], {Running, Deleting}) {
      RestEntries(cfg, w, cfg.namespaces[i]);
    }
    assert C.CountsRight(w.c, cfg, cfg.nodeNames[0], w.nodes[0].value);
  }

  lemma {:induction false} FirstCounts(nodes: seq<Option<CacheNode>>, count: nat)
    requires 0 < count <= |nodes| && OperatorSpec.Lists(nodes[0])
    ensures OperatorSpec.SumCounts(nodes, count).nodeNotInUse >= nodes[0].value.counts.nodeNotInUse
  {
    if count > 1 {
      FirstCounts(nodes, count - 1);
    }
  }

  // ---------- The operator serves ----------

  ghost predicate Servable(cfg: Config, w: World) {
    && cfg.namespaces != [] && !w.cache.gone && !w.cache.deleting && w.cache.finalizer && w.cache.owner == Agent
    && cfg.namespaces[0] in w.cache.entries && Open(w.c, cfg.namespaces[0])
    && OperatorSpec.SumCounts(w.nodes, |w.nodes|).nodeNotInUse > 0
  }

  ghost function ServeView(cfg: Config, w: World, uid: string): OperatorSpec.View {
    OperatorSpec.PassView(cfg, w, OperatorSpec.StartStatus(w), uid)
  }

  /** A pass of the operator that changes the entry of the first namespace. */
  lemma ServeChanges(cfg: Config, w: World, uid: string, m: Managed)
    requires Servable(cfg, w)
    requires m == OperatorSpec.Modify(w.c, ServeView(cfg, w, uid), cfg.namespaces[0], w.cache.entries[cfg.namespaces[0]])
    requires !m.err && m.updated
    ensures OperatorSpec.OperatorPass(cfg, w, uid, true)
            == w.(c := m.c, cache := OperatorSpec.StartStatus(w).(entries := w.cache.entries[cfg.namespaces[0] := m.e]))
  {
  }

  /** What the pass does to a waiting entry: the PV first where none is provisioned automatically, then the claim. */
  lemma ServeVolume(cfg: Config, w: World, uid: string, e: PvcStatus)
    requires Servable(cfg, w) && e == NewEntry(Operator).(pvName := e.pvName)
    requires forall k :: k in w.c.pvcs ==> w.c.pvcs[k].labels.node != "" && k.name != cfg.cache
    requires e.pvName == "" ==> (forall n :: n in w.c.pvs ==> w.c.pvs[n].labels.node != "") && UniqueName(cfg.cache, uid) !in w.c.pvs
    ensures var a := cfg.namespaces[0];
            var m := OperatorSpec.Modify(w.c, ServeView(cfg, w, uid), a, e);
            if cfg.kind && e.pvName == "" then
              m == Changed(AddPv(w.c, UniqueName(cfg.cache, uid), Labels(a, "")), e.(pvName := UniqueName(cfg.cache, uid)))
            else
              m == Changed(AddPvc(w.c, cfg.cache, Labels(a, "")), e.(pvcName := cfg.cache, cond := Extracted))
  {
    var l := Labels(cfg.namespaces[0], "");
    assert PvcMatches(w.c, l) == {};
    assert e.pvName == "" ==> PvMatches(w.c, l) == {};
    assert ObjKey(l.ns, cfg.cache) in AddPvc(w.c, cfg.cache, l).pvcs && ObjKey(l.ns, cfg.cache) !in w.c.pvcs;
  }

  lemma OperatorReaches(cfg: Config, w: World, uid: string)
    requires Reachable(cfg, w) && FreshUid(w.c.log, uid)
    ensures Reachable(cfg, OperatorSpec.OperatorPass(cfg, w, uid, true))
  {
    Reaches(cfg, w, OperatorStep(uid, true));
  }

  /** Claims of an unserved cache carry generated names, which are longer than that of the cache. */
  lemma NotTheCacheName(cfg: Config, w: World)
    requires Good(cfg, w) && !ServingExists(w.c)
    ensures forall k :: k in w.c.pvcs ==> w.c.pvcs[k].labels.node != "" && k.name != cfg.cache
    ensures forall n :: n in w.c.pvs ==> w.c.pvs[n].labels.node != ""
  {
    forall k | k in w.c.pvcs ensures w.c.pvcs[k].labels.node != "" && k.name != cfg.cache {
      assert Given(w.c, k.name, w.c.pvcs[k].labels);
    }
  }

  lemma FreshPv(cfg: Config, w: World, uid: string)
    requires Good(cfg, w) && FreshUid(w.c.log, uid)
    ensures UniqueName(cfg.cache, uid) !in w.c.pvs
  {
    FreshUnique(cfg, w.c, uid);
  }

  /** Everything a served cache needs to be torn down wrongly: two entries, and the claim that serves the first namespace. */
  ghost predicate Served(cfg: Config, w: World) {
    && Reachable(cfg, w) && Working(cfg, w) && !w.cache.deleting && w.cache.finalizer && w.c.pods == []
    && HasEntry(w, 0, cfg.namespaces[0]) && FirstObjects(cfg, w.c, EntryOf(cfg, w, cfg.namespaces[0]))
    && ServedClaim(cfg, w.c)
    && var e := EntryOf(cfg, w, cfg.namespaces[0]);
       e.owner == Agent && e.jobName != "" && e.pvcName != "" && e.pvcName != cfg.cache
  }

  ghost predicate ServedClaim(cfg: Config, c: Cluster)
    requires cfg.namespaces != []
  {
    var k := ObjKey(cfg.namespaces[0], cfg.cache);
    k in c.pvcs && c.pvcs[k] == Pvc(Labels(cfg.namespaces[0], ""), false)
  }

  lemma ReadyToServe(cfg: Config, w: World)
    requires Extracts(cfg, w) && C.Distance(cfg, w, 0) == 0
    ensures Servable(cfg, w) && w.cache.entries[cfg.namespaces[0]] == NewEntry(Operator)
  {
    RestCounts(cfg, w);
    FirstCounts(w.nodes, |w.nodes|);
    assert cfg.namespaces[0] in w.c.spaces;
  }

  /** The operator's PV where one is needed. */
  lemma ServePv(cfg: Config, w: World) returns (w': World)
    requires Extracts(cfg, w) && C.Distance(cfg, w, 0) == 0 && cfg.kind
    ensures Reachable(cfg, w') && Servable(cfg, w') && w'.nodes == w.nodes && w'.c.pvcs == w.c.pvcs && w'.c.jobs == w.c.jobs
    ensures w'.c.pods == [] && w'.c.spaces == w.c.spaces
    ensures var e := w'.cache.entries[cfg.namespaces[0]]; e == NewEntry(Operator).(pvName := e.pvName) && e.pvName != ""
  {
    var uid := FreshExists(w.c.log);
    ReachableGood(cfg, w);
    ReadyToServe(cfg, w);
    NotTheCacheName(cfg, w);
    FreshPv(cfg, w, uid);
    var e := NewEntry(Operator);
    ServeVolume(cfg, w, uid, e);
    ServeChanges(cfg, w, uid, OperatorSpec.Modify(w.c, ServeView(cfg, w, uid), cfg.namespaces[0], e));
    OperatorReaches(cfg, w, uid);
    w' := OperatorSpec.OperatorPass(cfg, w, uid, true);
  }

  /** The operator's claim. */
  lemma ServePvc(cfg: Config, w: World, uid: string) returns (w': World)
    requires Reachable(cfg, w) && Servable(cfg, w) && FreshUid(w.c.log, uid)
    requires var e := w.cache.entries[cfg.namespaces[0]]; e == NewEntry(Operator).(pvName := e.pvName) && (cfg.kind <==> e.pvName != "")
    requires forall k :: k in w.c.pvcs ==> w.c.pvcs[k].labels.node != "" && k.name != cfg.cache
    requires !cfg.kind ==> (forall n :: n in w.c.pvs ==> w.c.pvs[n].labels.node != "") && UniqueName(cfg.cache, uid) !in w.c.pvs
    ensures Reachable(cfg, w') && w'.nodes == w.nodes && w'.c == AddPvc(w.c, cfg.cache, Labels(cfg.namespaces[0], ""))
    ensures !w'.cache.gone && !w'.cache.deleting && w'.cache.finalizer && w'.cache.owner == Agent
  {
    var e := w.cache.entries[cfg.namespaces[0]];
    ServeVolume(cfg, w, uid, e);
    ServeChanges(cfg, w, uid, OperatorSpec.Modify(w.c, ServeView(cfg, w, uid), cfg.namespaces[0], e));
    OperatorReaches(cfg, w, uid);
    w' := OperatorSpec.OperatorPass(cfg, w, uid, true);
  }

  lemma ServedNow(cfg: Config, w: World, w': World)
    requires Extracts(cfg, w) && Reachable(cfg, w') && w'.nodes == w.nodes && w'.c.pods == [] && w'.c.jobs == w.c.jobs
    requires w'.c.pvcs == w.c.pvcs[ObjKey(cfg.namespaces[0], cfg.cache) := Pvc(Labels(cfg.namespaces[0], ""), false)]
    requires forall k :: k in w.c.pvcs ==> k.name != cfg.cache
    requires !w'.cache.gone && !w'.cache.deleting && w'.cache.finalizer && w'.cache.owner == Agent
    ensures Served(cfg, w')
  {
    assert EntryOf(cfg, w', cfg.namespaces[0]) == EntryOf(cfg, w, cfg.namespaces[0]);
  }

  lemma ServeStep(cfg: Config, w: World) returns (w': World)
    requires Extracts(cfg, w) && C.Distance(cfg, w, 0) == 0
    ensures Served(cfg, w') && w'.nodes == w.nodes
  {
    ReachableGood(cfg, w);
    NotTheCacheName(cfg, w);
    if cfg.kind {
      w' := ServePv(cfg, w);
      var uid := FreshExists(w'.c.log);
      w' := ServePvc(cfg, w', uid);
    } else {
      ReadyToServe(cfg, w);
      var uid := FreshExists(w.c.log);
      FreshPv(cfg, w, uid);
      w' := ServePvc(cfg, w, uid);
    }
    ServedNow(cfg, w, w');
  }

  // ---------- The serving claim is deleted ----------

  /** No Job of an Agent-owned cache carries the operator's labels. */
  lemma NoOperatorJobs(cfg: Config, w: World, ns: string, claim: string)
    requires Reachable(cfg, w) && w.cache.owner == Agent
    ensures MatchingJobs(w.c, Labels(ns, ""), claim) == {}
  {
    ReachableGood(cfg, w);
  }

  /** The recorded Job is deleted, or its name cleared if it has gone. */
  lemma JobForgotten(c: Cluster, e: PvcStatus, l: Labels)
    requires e.jobName != "" && e.owner == Agent
    requires var k := ObjKey(l.ns, e.jobName); k in c.jobs ==> !c.jobs[k].terminating
    ensures var r := ManageDelete(c, e, Agent, l);
            r.updated && r.e == e.(jobName := "") && r.c.pvcs == c.pvcs && r.c.pods == c.pods
  {
  }

  /** The claim that carries the operator's labels is adopted and deleted. */
  lemma AdoptedMarked(c: Cluster, e: PvcStatus, l: Labels, k: ObjKey)
    requires e.jobName == "" && e.pvcName == "" && e.owner == Agent && c.pods == []
    requires MatchingJobs(c, l, "") == {} && PvcMatches(c, l) == {k} && !c.pvcs[k].terminating
    ensures ManageDelete(c, e, Agent, l) == Skip(Marked(c, k), e).(updated := true)
  {
    assert DeletePvcAt(c, e, Agent, l, k) == Skip(Marked(c, k), e).(updated := true);
  }

  /** The recorded Job and the recorded claim are deleted first. */
  lemma OwnObjectsDeleted(cfg: Config, j: nat, w: World) returns (w': World)
    requires Mixed(cfg, j) && Served(cfg, w) && HasEntry(w, 0, cfg.namespaces[j])
    ensures Doomed(cfg, j, w') && ServedClaim(cfg, w'.c)
    ensures var e := EntryOf(cfg, w', cfg.namespaces[0]); e.jobName == "" && e.pvcName == "" && e.owner == Agent
  {
    var a := cfg.namespaces[0];
    w' := Deleted(cfg, j, w);
    var uid := FreshExists(w'.c.log);
    JobForgotten(w'.c, EntryOf(cfg, w', a), Labels(a, ""));
    Attempted(cfg, j, w', uid, ManageDelete(w'.c, EntryOf(cfg, w', a), Agent, Labels(a, "")));
    w' := Next(cfg, w', uid);
    uid := FreshExists(w'.c.log);
    NoOperatorJobs(cfg, w', a, EntryOf(cfg, w', a).pvcName);
    RecordedMarked(cfg, j, w', uid);
    w' := Next(cfg, w', uid);
  }

  lemma ServedAlone(cfg: Config, w: World)
    requires Reachable(cfg, w) && cfg.namespaces != [] && ServedClaim(cfg, w.c)
    ensures PvcMatches(w.c, Labels(cfg.namespaces[0], "")) == {ObjKey(cfg.namespaces[0], cfg.cache)}
  {
    ReachableGood(cfg, w);
    var m := PvcMatches(w.c, Labels(cfg.namespaces[0], ""));
    assert forall k :: k in m ==> k == ObjKey(cfg.namespaces[0], cfg.cache);
  }

  /** An agent deletes the claim through which the operator serves the cache. */
  lemma ServingClaimDeleted(cfg: Config, j: nat) returns (w: World, uid: string, k: ObjKey)
    requires Mixed(cfg, j)
    ensures Doomed(cfg, j, w) && FreshUid(w.c.log, uid)
    ensures PvcMarked(w.c, Next(cfg, w, uid).c, k) && w.c.pvcs[k].labels.node == ""
  {
    var a := cfg.namespaces[0];
    w := ExtractStep(cfg);
    w := Settle(cfg, w);
    RestEntries(cfg, w, cfg.namespaces[j]);
    w := ServeStep(cfg, w);
    w := OwnObjectsDeleted(cfg, j, w);
    k := ObjKey(a, cfg.cache);
    uid := FreshExists(w.c.log);
    NoOperatorJobs(cfg, w, a, "");
    ServedAlone(cfg, w);
    AdoptedMarked(w.c, EntryOf(cfg, w, a), Labels(a, ""), k);
    Attempted(cfg, j, w, uid, ManageDelete(w.c, EntryOf(cfg, w, a), Agent, Labels(a, "")));
  }
}
