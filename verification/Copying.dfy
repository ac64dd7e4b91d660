/** Agents of a cache that the operator extracts: they copy what it publishes, record its use, and come to rest. */
module Copying {
  import opened ApiTypes
  import opened Kube
  import opened Fleet
  import opened AgentSpec
  import opened Invariants
  import opened Linkage
  import opened LinkProofs
  import opened Settling
  import opened Sums
  import A = AgentFacts
  import C = Convergence
  import Counts
  import D = DeletionRest

  // ---------- Ranks ----------

  /** The operator has published an entry that says the cache was downloaded. */
  predicate Published(published: map<string, PvcStatus>, ns: string) {
    ns in published && DownloadSet(published[ns].cond)
  }

  ghost predicate Used(c: Cluster, cfg: Config, node: string, ns: string, e: PvcStatus) {
    e.pvcName != "" && D.InUse(c, node, ns, cfg.cache)
  }

  /** An entry can still have to be made, to be copied, and to record whether its claim is in use. */
  ghost function Rank(c: Cluster, v: View, entries: map<string, PvcStatus>, ns: string): nat {
    if ns !in entries then 3
    else
      var e := entries[ns];
      if e.pvcName == "" && Published(v.published, ns) then 2
      else if (e.cond == Extracted && Used(c, v.cfg, v.node, ns, e)) || (e.cond == Running && !Used(c, v.cfg, v.node, ns, e)) then 1
      else 0
  }

  /** What is published for an entry that has no claim yet names a claim. */
  ghost predicate SourcedEntry(published: map<string, PvcStatus>, entries: map<string, PvcStatus>, ns: string) {
    Published(published, ns) && (ns in entries ==> entries[ns].pvcName == "") ==> published[ns].pvcName != ""
  }

  ghost predicate Sourced(cfg: Config, published: map<string, PvcStatus>, entries: map<string, PvcStatus>) {
    forall ns :: ns in cfg.namespaces ==> SourcedEntry(published, entries, ns)
  }

  ghost predicate Copies(v: View) {
    v.owner == Operator && !v.deleting
  }

  // ---------- One entry ----------

  /** An entry is copied when it has no claim name and something is published for it, and left alone otherwise. */
  lemma CopyExactly(c: Cluster, v: View, ns: string, e: PvcStatus)
    requires Copies(v)
    ensures var m := Modify(c, v, ns, e);
            if e.pvcName == "" && Published(v.published, ns) then
              var p := v.published[ns];
              m == Managed(c, PvcStatus(p.pvName, p.pvcName, e.jobName, e.owner, p.cond), true, false, false)
            else m == Managed(c, e, false, false, false)
  {
  }

  lemma FlipExactly(c: Cluster, v: View, ns: string, e: PvcStatus, cnts: CacheCounts)
    ensures var a := AddCounts(c, v, ns, e, cnts);
            if e.cond == Extracted && Used(c, v.cfg, v.node, ns, e) then a.updated && a.e == e.(cond := Running)
            else if e.cond == Running && !Used(c, v.cfg, v.node, ns, e) then a.updated && a.e == e.(cond := Extracted)
            else !a.updated && a.e == e
  {
    D.InUseExactly(c, v.node, ns, v.cfg.cache);
  }

  /** A turn that asks for a write brings its entry forward, and a turn that does not finds nothing to do. */
  ghost predicate Turned(c: Cluster, v: View, entries: map<string, PvcStatus>, ns: string, e': PvcStatus) {
    Rank(c, v, entries[ns := e'], ns) < Rank(c, v, entries, ns)
  }

  lemma CopyTurn(c: Cluster, v: View, entries: map<string, PvcStatus>, ns: string)
    requires Copies(v) && SourcedEntry(v.published, entries, ns)
    ensures var m := Modify(c, v, ns, A.EntryOr(v, entries, ns));
            !m.err && m.c == c && (ns !in entries || m.updated ==> Turned(c, v, entries, ns, m.e))
            && (!m.updated ==> m.e == A.EntryOr(v, entries, ns))
  {
    CopyExactly(c, v, ns, A.EntryOr(v, entries, ns));
  }

  lemma FlipTurn(c: Cluster, v: View, entries: map<string, PvcStatus>, ns: string, cnts: CacheCounts)
    requires ns in entries && !(entries[ns].pvcName == "" && Published(v.published, ns))
    ensures var a := AddCounts(c, v, ns, entries[ns], cnts);
            if a.updated then Turned(c, v, entries, ns, a.e) else Rank(c, v, entries, ns) == 0
  {
    FlipExactly(c, v, ns, entries[ns], cnts);
  }

  // ---------- The namespace loop ----------

  ghost predicate Progress(c: Cluster, v: View, entries: map<string, PvcStatus>, entries': map<string, PvcStatus>, ns: string) {
    ns in v.cfg.namespaces && ns in entries' && entries' == entries[ns := entries'[ns]] && Turned(c, v, entries, ns, entries'[ns])
  }

  ghost predicate Settled(c: Cluster, v: View, entries: map<string, PvcStatus>, k: nat) {
    forall j :: k <= j < |v.cfg.namespaces| ==> Rank(c, v, entries, v.cfg.namespaces[j]) == 0
  }

  /** A loop that asks for a write has brought one entry forward, or it only lists the cache; any other finds all settled. */
  lemma {:induction false} LoopProgress(v: View, s: Loop, k: nat) returns (ns: string)
    requires Copies(v) && Sourced(v.cfg, v.published, s.entries) && k <= |v.cfg.namespaces|
    requires s.updated ==> s.entries == map[]
    ensures var r := ModifyFrom(v, s, k);
            && r.c == s.c
            && (|| (A.Same(s, r) && r.updated == s.updated && (!s.updated ==> Settled(s.c, v, s.entries, k)))
                || (r.updated && Progress(s.c, v, s.entries, r.entries, ns)))
    decreases |v.cfg.namespaces| - k
  {
    ns := "";
    if k < |v.cfg.namespaces| {
      ns := v.cfg.namespaces[k];
      var m := Modify(s.c, v, ns, A.EntryOr(v, s.entries, ns));
      assert SourcedEntry(v.published, s.entries, ns);
      CopyTurn(s.c, v, s.entries, ns);
      if ns in s.entries && !m.updated && !s.updated {
        CopyExactly(s.c, v, ns, s.entries[ns]);
        FlipTurn(s.c, v, s.entries, ns, s.cnts);
        var a := AddCounts(m.c, v, ns, m.e, s.cnts);
        if !a.updated {
          ns := LoopProgress(v, s.(c := m.c, cnts := a.cnts), k + 1);
        }
      }
    }
  }

  ghost function RankSum(c: Cluster, v: View, entries: map<string, PvcStatus>): nat {
    SumOver(ns => Rank(c, v, entries, ns), v.cfg.namespaces)
  }

  lemma RankSumDrops(c: Cluster, v: View, entries: map<string, PvcStatus>, entries': map<string, PvcStatus>, ns: string)
    requires Progress(c, v, entries, entries', ns)
    ensures RankSum(c, v, entries') < RankSum(c, v, entries)
  {
    SumStrictlyBelow(n => Rank(c, v, entries', n), n => Rank(c, v, entries, n), v.cfg.namespaces, ns);
  }

  lemma StaysSourced(c: Cluster, v: View, entries: map<string, PvcStatus>, entries': map<string, PvcStatus>, ns: string)
    requires Sourced(v.cfg, v.published, entries) && Progress(c, v, entries, entries', ns)
    ensures Sourced(v.cfg, v.published, entries')
  {
    forall n | n in v.cfg.namespaces ensures SourcedEntry(v.published, entries', n) {
      assert SourcedEntry(v.published, entries, n);
    }
  }

  lemma RankSumZero(c: Cluster, v: View, entries: map<string, PvcStatus>)
    requires Settled(c, v, entries, 0)
    ensures RankSum(c, v, entries) == 0
  {
    forall ns | ns in v.cfg.namespaces ensures Rank(c, v, entries, ns) <= 0 {
      var j :| 0 <= j < |v.cfg.namespaces| && v.cfg.namespaces[j] == ns;
    }
    SumBounded(ns => Rank(c, v, entries, ns), v.cfg.namespaces, 0);
  }

  // ---------- The body of a pass ----------

  /** How far a node object that is set up is from rest. */
  ghost function Rest(c: Cluster, v: View, nd: CacheNode): nat {
    2 * RankSum(c, v, A.Held(nd)) + (if nd.listed.None? then 2 else 0) + (if C.CountsRight(c, v.cfg, v.node, nd) then 0 else 1)
  }

  lemma QuietCounts(c: Cluster, v: View, nd: CacheNode)
    requires Unique(c) && v.finalizer && nd.listed.Some? && !v.deleting && !RunLoop(v, StartLoop(c, nd.listed)).updated
    ensures var cnts := RunLoop(v, StartLoop(c, nd.listed)).cnts;
            C.CountsRight(c, v.cfg, v.node, nd.(counts := cnts)) && (C.CountsRight(c, v.cfg, v.node, nd) ==> nd.counts == cnts)
  {
    C.NodeCntStays(v, StartLoop(c, nd.listed), 0);
    Counts.QuietLoopCounts(v, c, nd.listed.value);
  }

  /** The body of a pass asks for a write. */
  ghost predicate BodyWrites(c: Cluster, v: View, nd: CacheNode) {
    var r := RunLoop(v, StartLoop(c, nd.listed));
    r.updated || r.cnts != nd.counts
  }

  /** A pass brings the node closer to rest, or it is at rest and the pass changes nothing. */
  lemma BodyProgress(c: Cluster, v: View, nd: CacheNode)
    requires Copies(v) && Sourced(v.cfg, v.published, A.Held(nd)) && Unique(c) && v.finalizer
    ensures var p := PassBody(v, c, nd, true);
            && p.c == c && p.nd.nodeName == nd.nodeName && Sourced(v.cfg, v.published, A.Held(p.nd))
            && (BodyWrites(c, v, nd) <==> Rest(c, v, nd) > 0)
            && (if BodyWrites(c, v, nd) then Rest(c, v, p.nd) < Rest(c, v, nd) else p.nd == nd)
  {
    var start := StartLoop(c, nd.listed);
    var ns := LoopProgress(v, start, 0);
    var r := RunLoop(v, start);
    if r.updated {
      if Progress(c, v, start.entries, r.entries, ns) {
        RankSumDrops(c, v, start.entries, r.entries, ns);
        StaysSourced(c, v, start.entries, r.entries, ns);
      }
    } else {
      RankSumZero(c, v, start.entries);
      QuietCounts(c, v, nd);
    }
  }

  // ---------- One pass ----------

  /** A cache that the operator owns and nobody deletes. */
  ghost predicate Calm(cfg: Config, w: World, i: nat) {
    Good(cfg, w) && i < |cfg.nodeNames| && !w.cache.gone && !w.cache.deleting && w.cache.owner == Operator
  }

  ghost function ViewOf(cfg: Config, w: World, i: nat): View
    requires i < |cfg.nodeNames|
  {
    View(cfg, cfg.nodeNames[i], w.cache.owner, w.cache.deleting, true, w.cache.entries, "")
  }

  /** How far a node is from rest, whether its object is set up or not. */
  ghost function Distance(cfg: Config, w: World, i: nat): nat
    requires i < |cfg.nodeNames| && i < |w.nodes|
  {
    var v := ViewOf(cfg, w, i);
    var unset := 2 * RankSum(w.c, v, map[]) + 3;
    if w.nodes[i].None? then unset + 3
    else
      var nd := w.nodes[i].value;
      if nd.nodeName != cfg.nodeNames[i] then unset + (if nd.finalizer then 1 else 2)
      else Rest(w.c, v, nd)
  }

  lemma DistanceBounded(cfg: Config, w: World, i: nat)
    requires i < |cfg.nodeNames| && i < |w.nodes|
    ensures Distance(cfg, w, i) <= 6 * |cfg.namespaces| + 6
  {
    var v := ViewOf(cfg, w, i);
    SumBounded(ns => Rank(w.c, v, map[], ns), cfg.namespaces, 3);
    if w.nodes[i].Some? {
      var held := A.Held(w.nodes[i].value);
      SumBounded(ns => Rank(w.c, v, held, ns), cfg.namespaces, 3);
    }
  }

  /** The pass creates the node object or writes its metadata or status. */
  ghost predicate Writes(cfg: Config, w: World, i: nat, uid: string)
    requires i < |cfg.nodeNames| && i < |w.nodes|
  {
    || w.nodes[i].None?
    || w.nodes[i].value.nodeName != cfg.nodeNames[i]
    || BodyWrites(w.c, NodeView(cfg, w, i, uid), w.nodes[i].value)
  }

  /** The random suffix plays no part in copying. */
  lemma {:induction false} UidFree(v: View, u: View, s: Loop, k: nat)
    requires Copies(v) && u == v.(uid := u.uid) && k <= |v.cfg.namespaces|
    ensures ModifyFrom(u, s, k) == ModifyFrom(v, s, k)
    decreases |v.cfg.namespaces| - k
  {
    if k < |v.cfg.namespaces| {
      var ns := v.cfg.namespaces[k];
      var e := A.EntryOr(v, s.entries, ns);
      UidFreeTurn(s.c, v, u, ns, e, s.cnts);
      var s' := s.(c := s.c, updated := s.updated || ns !in s.entries);
      UidFree(v, u, s'.(cnts := AddCounts(s.c, v, ns, e, s.cnts).cnts), k + 1);
    }
  }

  lemma UidFreeTurn(c: Cluster, v: View, u: View, ns: string, e: PvcStatus, cnts: CacheCounts)
    requires Copies(v) && u == v.(uid := u.uid)
    ensures Modify(c, u, ns, e) == Modify(c, v, ns, e) && AddCounts(c, u, ns, e, cnts) == AddCounts(c, v, ns, e, cnts)
    ensures var m := Modify(c, v, ns, e); !m.err && m.c == c && (!m.updated ==> m.e == e)
  {
    CopyExactly(c, v, ns, e);
    CopyExactly(c, u, ns, e);
  }

  lemma PassUidFree(cfg: Config, w: World, i: nat, uid: string, uid': string)
    requires Calm(cfg, w, i)
    ensures AgentPass(cfg, w, i, uid, true) == AgentPass(cfg, w, i, uid', true)
    ensures Writes(cfg, w, i, uid) <==> Writes(cfg, w, i, uid')
  {
    if w.nodes[i].Some? {
      UidFree(NodeView(cfg, w, i, uid), NodeView(cfg, w, i, uid'), StartLoop(w.c, w.nodes[i].value.listed), 0);
    }
  }

  /** What the operator publishes for entries without a claim names a claim. */
  ghost predicate SourcedAt(cfg: Config, w: World, i: nat) {
    i < |w.nodes| && Sourced(cfg, w.cache.entries, Holds(w.nodes[i]))
  }

  /** Creating and setting up the node object. */
  lemma UnsetProgress(cfg: Config, w: World, i: nat)
    requires Calm(cfg, w, i)
    requires w.nodes[i].None? || w.nodes[i].value.nodeName != cfg.nodeNames[i]
    ensures Distance(cfg, AgentPass(cfg, w, i, "", true), i) < Distance(cfg, w, i)
    ensures SourcedAt(cfg, AgentPass(cfg, w, i, "", true), i) <==> SourcedAt(cfg, w, i)
  {
    assert w.nodes[i].Some? ==> NodeShape(cfg, w.cache, cfg.nodeNames[i], w.nodes[i].value);
  }

  lemma SetProgress(cfg: Config, w: World, i: nat)
    requires Calm(cfg, w, i) && SourcedAt(cfg, w, i)
    requires w.nodes[i].Some? && w.nodes[i].value.nodeName == cfg.nodeNames[i]
    ensures var w' := AgentPass(cfg, w, i, "", true);
            && SourcedAt(cfg, w', i) && (Writes(cfg, w, i, "") <==> Distance(cfg, w, i) > 0)
            && (if Writes(cfg, w, i, "") then Distance(cfg, w', i) < Distance(cfg, w, i) else w' == w)
  {
    var nd := w.nodes[i].value;
    assert NodeShape(cfg, w.cache, cfg.nodeNames[i], nd);
    var v := NodeView(cfg, w, i, "");
    assert v == ViewOf(cfg, w, i);
    BodyProgress(w.c, v, nd);
    assert w.nodes[i := w.nodes[i]] == w.nodes;
  }

  lemma AnyProgress(cfg: Config, w: World, i: nat)
    requires Calm(cfg, w, i) && SourcedAt(cfg, w, i)
    ensures var w' := AgentPass(cfg, w, i, "", true);
            && SourcedAt(cfg, w', i) && (Writes(cfg, w, i, "") <==> Distance(cfg, w, i) > 0)
            && (if Writes(cfg, w, i, "") then Distance(cfg, w', i) < Distance(cfg, w, i) else w' == w)
  {
    if w.nodes[i].None? || w.nodes[i].value.nodeName != cfg.nodeNames[i] {
      UnsetProgress(cfg, w, i);
    } else {
      SetProgress(cfg, w, i);
    }
  }

  /** The distance is exact: a pass writes if and only if the distance is not zero, and a write brings the node closer to rest. */
  lemma WritesUntilZero(cfg: Config, w: World, i: nat, uid: string)
    requires Calm(cfg, w, i) && FreshUid(w.c.log, uid) && SourcedAt(cfg, w, i)
    ensures var w' := AgentPass(cfg, w, i, uid, true);
            && Calm(cfg, w', i) && w'.cache == w.cache && SourcedAt(cfg, w', i)
            && (Writes(cfg, w, i, uid) <==> Distance(cfg, w, i) > 0)
            && (if Writes(cfg, w, i, uid) then Distance(cfg, w', i) < Distance(cfg, w, i) else w' == w)
  {
    AgentGood(cfg, w, i, uid, true);
    PassUidFree(cfg, w, i, uid, "");
    AnyProgress(cfg, w, i);
  }

  // ---------- What is published without a claim ----------

  /** Something is published without a claim, and copied again and again. */
  ghost predicate Unsourced(v: View, entries: map<string, PvcStatus>, ns: string) {
    ns in v.cfg.namespaces && !SourcedEntry(v.published, entries, ns)
  }

  lemma {:induction false} LoopCopies(v: View, s: Loop, k: nat, j: nat)
    requires Copies(v) && k <= j < |v.cfg.namespaces| && Unsourced(v, s.entries, v.cfg.namespaces[j])
    ensures var r := ModifyFrom(v, s, k); r.c == s.c && r.updated && Unsourced(v, r.entries, v.cfg.namespaces[j])
    decreases |v.cfg.namespaces| - k
  {
    var ns := v.cfg.namespaces[k];
    CopyExactly(s.c, v, ns, A.EntryOr(v, s.entries, ns));
    if ns in s.entries && !s.updated && !Modify(s.c, v, ns, s.entries[ns]).updated {
      var a := AddCounts(s.c, v, ns, s.entries[ns], s.cnts);
      FlipExactly(s.c, v, ns, s.entries[ns], s.cnts);
      if !a.updated {
        LoopCopies(v, s.(cnts := a.cnts), k + 1, j);
      }
    }
  }

  lemma UnsetUnsourced(cfg: Config, w: World, i: nat, uid: string)
    requires Calm(cfg, w, i) && !SourcedAt(cfg, w, i)
    requires w.nodes[i].None? || w.nodes[i].value.nodeName != cfg.nodeNames[i]
    ensures !SourcedAt(cfg, AgentPass(cfg, w, i, uid, true), i)
  {
    assert w.nodes[i].Some? ==> NodeShape(cfg, w.cache, cfg.nodeNames[i], w.nodes[i].value);
    assert Holds(AgentPass(cfg, w, i, uid, true).nodes[i]) == Holds(w.nodes[i]);
  }

  lemma SetUnsourced(cfg: Config, w: World, i: nat, uid: string)
    requires Calm(cfg, w, i) && !SourcedAt(cfg, w, i)
    requires w.nodes[i].Some? && w.nodes[i].value.nodeName == cfg.nodeNames[i]
    ensures Writes(cfg, w, i, uid) && !SourcedAt(cfg, AgentPass(cfg, w, i, uid, true), i)
  {
    var held := Holds(w.nodes[i]);
    var ns :| ns in cfg.namespaces && !SourcedEntry(w.cache.entries, held, ns);
    var j :| 0 <= j < |cfg.namespaces| && cfg.namespaces[j] == ns;
    LoopCopies(NodeView(cfg, w, i, uid), StartLoop(w.c, w.nodes[i].value.listed), 0, j);
    assert !SourcedEntry(w.cache.entries, Holds(AgentPass(cfg, w, i, uid, true).nodes[i]), ns);
  }

  /** While something is published without a claim for an entry that has none, every pass writes, and this goes on. */
  lemma UnsourcedWrites(cfg: Config, w: World, i: nat, uid: string)
    requires Calm(cfg, w, i) && FreshUid(w.c.log, uid) && !SourcedAt(cfg, w, i)
    ensures Writes(cfg, w, i, uid)
    ensures var w' := AgentPass(cfg, w, i, uid, true); Calm(cfg, w', i) && w'.cache == w.cache && !SourcedAt(cfg, w', i)
  {
    AgentGood(cfg, w, i, uid, true);
    if w.nodes[i].Some? && w.nodes[i].value.nodeName == cfg.nodeNames[i] {
      SetUnsourced(cfg, w, i, uid);
    } else {
      UnsetUnsourced(cfg, w, i, uid);
    }
  }

  // ---------- Runs with a frozen environment ----------

  /** Only the agent of node `i` takes steps, each with its own random suffix. */
  ghost predicate Frozen(cfg: Config, ws: seq<World>, i: nat, uids: seq<string>) {
    && |ws| == |uids| + 1 && Calm(cfg, ws[0], i)
    && forall t :: 0 <= t < |uids| ==>
         i < |ws[t].nodes| && FreshUid(ws[t].c.log, uids[t]) && ws[t + 1] == AgentPass(cfg, ws[t], i, uids[t], true)
  }

  /** One more pass of a calm world leaves it calm, and as sourced as it was. */
  lemma CalmStep(cfg: Config, w: World, i: nat, uid: string)
    requires Calm(cfg, w, i) && FreshUid(w.c.log, uid)
    ensures var w' := AgentPass(cfg, w, i, uid, true); Calm(cfg, w', i) && (SourcedAt(cfg, w', i) <==> SourcedAt(cfg, w, i))
  {
    if SourcedAt(cfg, w, i) {
      WritesUntilZero(cfg, w, i, uid);
    } else {
      UnsourcedWrites(cfg, w, i, uid);
    }
  }

  ghost predicate CalmAt(cfg: Config, ws: seq<World>, i: nat, t: nat) {
    t < |ws| && Calm(cfg, ws[t], i) && (SourcedAt(cfg, ws[t], i) <==> SourcedAt(cfg, ws[0], i))
  }

  lemma CalmNext(cfg: Config, ws: seq<World>, i: nat, uids: seq<string>, t: nat)
    requires Frozen(cfg, ws, i, uids) && t < |uids| && CalmAt(cfg, ws, i, t)
    ensures CalmAt(cfg, ws, i, t + 1)
  {
    CalmStep(cfg, ws[t], i, uids[t]);
  }

  lemma {:induction false} CalmThroughout(cfg: Config, ws: seq<World>, i: nat, t: nat)
    requires t < |ws| && CalmAt(cfg, ws, i, 0) && forall u: nat :: u < t && CalmAt(cfg, ws, i, u) ==> CalmAt(cfg, ws, i, u + 1)
    ensures CalmAt(cfg, ws, i, t)
  {
    if t > 0 {
      CalmThroughout(cfg, ws, i, t - 1);
    }
  }

  lemma StaysCalm(cfg: Config, ws: seq<World>, i: nat, uids: seq<string>, t: nat)
    requires Frozen(cfg, ws, i, uids) && t < |ws|
    ensures Calm(cfg, ws[t], i) && (SourcedAt(cfg, ws[t], i) <==> SourcedAt(cfg, ws[0], i))
  {
    forall u: nat | u < t && CalmAt(cfg, ws, i, u) ensures CalmAt(cfg, ws, i, u + 1) {
      CalmNext(cfg, ws, i, uids, u);
    }
    CalmThroughout(cfg, ws, i, t);
  }

  ghost function DistanceOf(cfg: Config, i: nat): World -> nat {
    (w: World) => if i < |cfg.nodeNames| && i < |w.nodes| then Distance(cfg, w, i) else 0
  }

  lemma FrozenSpends(cfg: Config, ws: seq<World>, i: nat, uids: seq<string>, t: nat)
    requires Frozen(cfg, ws, i, uids) && t < |uids| && SourcedAt(cfg, ws[0], i)
    ensures SpendsAt(DistanceOf(cfg, i), ws, t)
  {
    StaysCalm(cfg, ws, i, uids, t);
    WritesUntilZero(cfg, ws[t], i, uids[t]);
  }

  lemma FrozenRests(cfg: Config, ws: seq<World>, i: nat, uids: seq<string>, t: nat, u: nat)
    requires Frozen(cfg, ws, i, uids) && t < |uids| && u < |uids|
    ensures RestAlike(ws, t, u)
  {
    StaysCalm(cfg, ws, i, uids, t);
    if ws[u] == ws[t] {
      PassUidFree(cfg, ws[t], i, uids[t], uids[u]);
    }
  }

  /** With the environment frozen every pass from number `6 * namespaces + 6` on leaves the world as it is. */
  lemma CopyingSettles(cfg: Config, ws: seq<World>, i: nat, uids: seq<string>, t: nat)
    requires Frozen(cfg, ws, i, uids) && SourcedAt(cfg, ws[0], i) && 6 * |cfg.namespaces| + 6 <= t < |uids|
    ensures ws[t + 1] == ws[t] && !Writes(cfg, ws[t], i, uids[t])
  {
    DistanceBounded(cfg, ws[0], i);
    forall u: nat | u + 1 < |ws| ensures SpendsAt(DistanceOf(cfg, i), ws, u) {
      FrozenSpends(cfg, ws, i, uids, u);
    }
    forall u: nat, v: nat | u + 1 < |ws| && v + 1 < |ws| ensures RestAlike(ws, u, v) {
      FrozenRests(cfg, ws, i, uids, u, v);
    }
    SpendsAndRests(DistanceOf(cfg, i), ws, 6 * |cfg.namespaces| + 6, t);
    StaysCalm(cfg, ws, i, uids, t);
    WritesUntilZero(cfg, ws[t], i, uids[t]);
  }

  ghost predicate WritesAt(cfg: Config, ws: seq<World>, i: nat, uids: seq<string>, t: nat) {
    t < |uids| && t < |ws| && i < |cfg.nodeNames| && i < |ws[t].nodes| && Writes(cfg, ws[t], i, uids[t])
  }

  lemma UnsourcedAlways(cfg: Config, ws: seq<World>, i: nat, uids: seq<string>, t: nat)
    requires Frozen(cfg, ws, i, uids) && !SourcedAt(cfg, ws[0], i) && t < |uids|
    ensures WritesAt(cfg, ws, i, uids, t)
  {
    StaysCalm(cfg, ws, i, uids, t);
    UnsourcedWrites(cfg, ws[t], i, uids[t]);
  }

  lemma SourcedRests(cfg: Config, ws: seq<World>, i: nat, uids: seq<string>, t: nat)
    requires Frozen(cfg, ws, i, uids) && SourcedAt(cfg, ws[0], i) && 6 * |cfg.namespaces| + 6 <= t < |uids|
    ensures !WritesAt(cfg, ws, i, uids, t)
  {
    CopyingSettles(cfg, ws, i, uids, t);
  }

  /**
   * With the environment frozen the agent comes to rest if and only if nothing is published without a claim for an entry
   * that has none. Otherwise each of its passes writes that entry again.
   */
  lemma SettlesExactlyWhen(cfg: Config, ws: seq<World>, i: nat, uids: seq<string>)
    requires Frozen(cfg, ws, i, uids) && |uids| > 6 * |cfg.namespaces| + 6
    ensures SourcedAt(cfg, ws[0], i) <==> exists t: nat :: t < |uids| && !WritesAt(cfg, ws, i, uids, t)
  {
    if SourcedAt(cfg, ws[0], i) {
      SourcedRests(cfg, ws, i, uids, 6 * |cfg.namespaces| + 6);
    } else {
      forall t: nat | t < |uids| ensures WritesAt(cfg, ws, i, uids, t) {
        UnsourcedAlways(cfg, ws, i, uids, t);
      }
    }
  }

  // ---------- What rest means ----------

  /** The node has an entry for the namespace, with a claim if one is published, that says Running only if the claim is in use. */
  ghost predicate CopiedHere(cfg: Config, w: World, i: nat, ns: string)
    requires i < |cfg.nodeNames|
  {
    && HasEntry(w, i, ns)
    && (Published(w.cache.entries, ns) ==> Entry(w, i, ns).pvcName != "")
    && (Entry(w, i, ns).cond in {Extracted, Running} ==>
          (Entry(w, i, ns).cond == Running <==> Used(w.c, cfg, cfg.nodeNames[i], ns, Entry(w, i, ns))))
  }

  lemma RankMeans(cfg: Config, w: World, i: nat, ns: string)
    requires i < |cfg.nodeNames| && i < |w.nodes| && Distance(cfg, w, i) == 0 && ns in cfg.namespaces
    ensures CopiedHere(cfg, w, i, ns)
  {
    var v := ViewOf(cfg, w, i);
    var held := A.Held(w.nodes[i].value);
    if Rank(w.c, v, held, ns) > 0 {
      SumStrictlyBelow(n => 0, n => Rank(w.c, v, held, n), cfg.namespaces, ns);
    }
  }

  /** With the environment frozen a node comes to have a copy of everything that the operator publishes, with its use recorded. */
  lemma EverythingIsCopied(cfg: Config, ws: seq<World>, i: nat, uids: seq<string>, t: nat, ns: string)
    requires Frozen(cfg, ws, i, uids) && SourcedAt(cfg, ws[0], i) && 6 * |cfg.namespaces| + 6 <= t < |uids| && ns in cfg.namespaces
    ensures CopiedHere(cfg, ws[t], i, ns)
  {
    CopyingSettles(cfg, ws, i, uids, t);
    StaysCalm(cfg, ws, i, uids, t);
    WritesUntilZero(cfg, ws[t], i, uids[t]);
    RankMeans(cfg, ws[t], i, ns);
  }
}
