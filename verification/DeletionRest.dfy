/** When a controller has nothing more to do for a cache that is being deleted. */
module DeletionRest {
  import opened ApiTypes
  import opened Kube
  import opened Fleet
  import AgentSpec
  import OperatorSpec
  import opened Invariants
  import opened Linkage
  import opened LinkProofs
  import opened DeletionMeasure
  import ObjectProofs
  import A = AgentFacts
  import O = OperatorFacts

  // ---------- What may stay ----------

  /** An unfinished pod in scope mounts the claim, or one whose name contains that name. */
  ghost predicate InUse(c: Cluster, node: string, ns: string, claim: string) {
    claim != "" && exists p, v :: UsedBy(c.pods, node, ns, claim, p, v)
  }

  /** The claim an entry leads to: the recorded one, or else one with these labels. */
  ghost predicate LeadsToClaim(c: Cluster, l: Labels, e: PvcStatus, k: ObjKey) {
    k in c.pvcs && if e.pvcName != "" then k == ObjKey(l.ns, e.pvcName) else c.pvcs[k].labels == l
  }

  ghost predicate Mounted(c: Cluster, l: Labels, e: PvcStatus) {
    exists k :: LeadsToClaim(c, l, e, k) && InUse(c, l.node, l.ns, k.name)
  }

  /** The claim is no longer mounted, but the cluster has not removed it yet. */
  ghost predicate Vanishing(c: Cluster, l: Labels, e: PvcStatus) {
    exists k :: LeadsToClaim(c, l, e, k) && c.pvcs[k].terminating && !InUse(c, l.node, l.ns, k.name)
  }

  lemma InUseExactly(c: Cluster, node: string, ns: string, claim: string)
    ensures UseCount(c.pods, node, ns, claim) != 0 <==> InUse(c, node, ns, claim)
  {
    PodUsesZero(c.pods, node, ns, claim, |c.pods|);
    forall p: nat, v: nat | p < |c.pods| && v < |c.pods[p].claims|
      ensures UsedBy(c.pods, node, ns, claim, p, v) <==> IsUse(c.pods[p], node, ns, c.pods[p].claims[v], claim)
    {
      UsedByIsUse(c.pods, node, ns, claim, p, v);
    }
  }

  /** An entry leads to at most one claim. */
  lemma OnlyClaim(c: Cluster, e: PvcStatus, l: Labels, k: ObjKey)
    requires Unique(c) && LeadsToClaim(c, l, e, k)
    ensures Mounted(c, l, e) <==> InUse(c, l.node, l.ns, k.name)
    ensures Vanishing(c, l, e) <==> c.pvcs[k].terminating && !InUse(c, l.node, l.ns, k.name)
  {
    assert forall j :: LeadsToClaim(c, l, e, j) ==> j == k;
  }

  /** The lookup of the claim stage finds the claim the entry leads to. */
  lemma StageFinds(c: Cluster, e: PvcStatus, caller: PvcOwner, l: Labels, k: ObjKey)
    requires Unique(c) && LeadsToClaim(c, l, e, k)
    ensures DeletePvc(c, e, caller, l) == DeletePvcAt(c, e, caller, l, k)
  {
    UniqueLookups(c, l);
    if e.pvcName == "" {
      assert k in PvcMatches(c, l);
    }
  }

  lemma StageSkips(c: Cluster, e: PvcStatus, caller: PvcOwner, l: Labels)
    requires Unique(c) && forall k :: !LeadsToClaim(c, l, e, k)
    ensures var p := DeletePvc(c, e, caller, l); !p.inUse && !p.deleting
  {
    UniqueLookups(c, l);
    assert PvcMatches(c, l) != {} ==> Only(PvcMatches(c, l)) in PvcMatches(c, l);
    assert !LeadsToClaim(c, l, e, ObjKey(l.ns, e.pvcName));
    if PvcLookup(c, e.pvcName, l).Adopted? {
      assert LeadsToClaim(c, l, e, Only(PvcMatches(c, l)));
    }
  }

  lemma PvcStageReports(c: Cluster, e: PvcStatus, caller: PvcOwner, l: Labels)
    requires Unique(c)
    ensures var p := DeletePvc(c, e, caller, l);
            !p.updated ==> (p.inUse <==> Mounted(c, l, e)) && (p.deleting <==> Vanishing(c, l, e))
  {
    if k :| LeadsToClaim(c, l, e, k) {
      StageFinds(c, e, caller, l, k);
      OnlyClaim(c, e, l, k);
      InUseExactly(c, l.node, l.ns, k.name);
    } else {
      StageSkips(c, e, caller, l);
    }
  }

  lemma PvStageReports(c: Cluster, e: PvcStatus, caller: PvcOwner, l: Labels)
    ensures var r := DeletePv(c, e, caller, l); !r.inUse && !r.deleting
  {
  }

  /** An attempt that changes nothing reports use and pending deletion as they are. */
  lemma AttemptReports(c: Cluster, e: PvcStatus, caller: PvcOwner, l: Labels)
    requires Unique(c)
    ensures var r := ManageDelete(c, e, caller, l);
            !r.updated ==> !r.err && (r.inUse <==> Mounted(c, l, e)) && (r.deleting <==> Vanishing(c, l, e))
  {
    UniqueDelete(c, e, caller, l);
    UniquePvcDelete(c, e, caller, l);
    PvcStageReports(c, e, caller, l);
    PvStageReports(c, e, caller, l);
  }

  // ---------- What a changing attempt changes ----------

  /** The Job an entry leads to: the recorded one, or else one with these labels that extracts into the claim. */
  ghost predicate LeadsTo(c: Cluster, l: Labels, e: PvcStatus, k: ObjKey) {
    k in c.jobs && if e.jobName != "" then k == ObjKey(l.ns, e.jobName)
                   else k.ns == l.ns && c.jobs[k].node == l.node && c.jobs[k].pvc == e.pvcName
  }

  ghost predicate LeadsToPv(c: Cluster, l: Labels, e: PvcStatus, n: string) {
    n in c.pvs && if e.pvName != "" then n == e.pvName else c.pvs[n].labels == l
  }

  /** One live object the entry leads to is marked, and its name is cleared. */
  ghost predicate MarksOne(c: Cluster, e: PvcStatus, l: Labels, r: Removal) {
    || (exists k :: LeadsTo(c, l, e, k) && !c.jobs[k].terminating && r.e == e.(jobName := "")
                    && r.c == c.(jobs := c.jobs[k := c.jobs[k].(terminating := true)]))
    || (exists k :: LeadsToClaim(c, l, e, k) && !c.pvcs[k].terminating && r.e == e.(pvcName := "")
                    && !InUse(c, l.node, l.ns, k.name) && r.c == c.(pvcs := c.pvcs[k := c.pvcs[k].(terminating := true)]))
    || (exists n :: LeadsToPv(c, l, e, n) && !c.pvs[n].terminating && r.e == e.(pvName := "")
                    && r.c == c.(pvs := c.pvs[n := c.pvs[n].(terminating := true)]))
  }

  /** The name of an object that is gone is cleared. */
  ghost predicate ClearsOne(c: Cluster, e: PvcStatus, l: Labels, r: Removal) {
    && r.c == c
    && ((e.jobName != "" && ObjKey(l.ns, e.jobName) !in c.jobs && r.e == e.(jobName := ""))
        || (e.pvcName != "" && ObjKey(l.ns, e.pvcName) !in c.pvcs && r.e == e.(pvcName := ""))
        || (e.pvName != "" && e.pvName !in c.pvs && r.e == e.(pvName := "")))
  }

  ghost predicate OneThing(c: Cluster, e: PvcStatus, caller: PvcOwner, l: Labels, r: Removal) {
    ClearsOne(c, e, l, r) || (caller == e.owner && MarksOne(c, e, l, r))
  }

  lemma JobStageChanges(c: Cluster, e: PvcStatus, caller: PvcOwner, l: Labels)
    requires DeleteJob(c, e, caller, l).updated
    ensures var r := DeleteJob(c, e, caller, l); OneThing(c, e, caller, l, r)
  {
    var k := if e.jobName != "" then ObjKey(l.ns, e.jobName) else LatestJob(c, l, e.pvcName).value;
    assert k in c.jobs ==> LeadsTo(c, l, e, k);
  }

  lemma PvcStageChanges(c: Cluster, e: PvcStatus, caller: PvcOwner, l: Labels)
    requires Unique(c) && DeletePvc(c, e, caller, l).updated
    ensures var r := DeletePvc(c, e, caller, l); OneThing(c, e, caller, l, r)
  {
    if k :| LeadsToClaim(c, l, e, k) {
      StageFinds(c, e, caller, l, k);
      InUseExactly(c, l.node, l.ns, k.name);
    } else {
      UniqueLookups(c, l);
      assert PvcMatches(c, l) != {} ==> Only(PvcMatches(c, l)) in PvcMatches(c, l);
      assert PvcLookup(c, e.pvcName, l).Adopted? ==> LeadsToClaim(c, l, e, Only(PvcMatches(c, l)));
      assert e.pvcName != "" ==> !LeadsToClaim(c, l, e, ObjKey(l.ns, e.pvcName));
    }
  }

  lemma PvStageChanges(c: Cluster, e: PvcStatus, caller: PvcOwner, l: Labels)
    requires Unique(c) && DeletePv(c, e, caller, l).updated
    ensures var r := DeletePv(c, e, caller, l); OneThing(c, e, caller, l, r)
  {
    UniqueLookups(c, l);
    if e.pvName == "" {
      assert PvLookup(c, e.pvName, l).Adopted?;
      assert Only(PvMatches(c, l)) in PvMatches(c, l) && LeadsToPv(c, l, e, Only(PvMatches(c, l)));
    } else if e.pvName in c.pvs {
      assert LeadsToPv(c, l, e, e.pvName);
    }
  }

  /**
   * An attempt that changes something does one thing: it marks one live object that the entry leads to and clears its name,
   * or it clears the name of an object that is gone. Only the owner marks, and never a claim in use.
   */
  lemma AttemptDoesOneThing(c: Cluster, e: PvcStatus, caller: PvcOwner, l: Labels)
    requires Unique(c) && ManageDelete(c, e, caller, l).updated
    ensures var r := ManageDelete(c, e, caller, l);
            !r.err && !r.inUse && !r.deleting && OneThing(c, e, caller, l, r)
  {
    ManageDeleteQuiet(c, e, caller, l);
    StageDecides(c, e, caller, l);
    if DeleteJob(c, e, caller, l).updated {
      JobStageChanges(c, e, caller, l);
    } else if DeletePvc(c, e, caller, l).updated {
      PvcStageChanges(c, e, caller, l);
    } else {
      PvStageChanges(c, e, caller, l);
    }
  }

  lemma StageDecides(c: Cluster, e: PvcStatus, caller: PvcOwner, l: Labels)
    requires Unique(c) && ManageDelete(c, e, caller, l).updated
    ensures ManageDelete(c, e, caller, l)
            == if DeleteJob(c, e, caller, l).updated then DeleteJob(c, e, caller, l)
               else if DeletePvc(c, e, caller, l).updated then DeletePvc(c, e, caller, l)
               else DeletePv(c, e, caller, l)
  {
    UniquePvcDelete(c, e, caller, l);
  }

  // ---------- Agents ----------

  /** The entry has to stay: for the owner while its claim is mounted or vanishing, for anybody else while it is mounted. */
  ghost predicate MustStay(c: Cluster, owner: PvcOwner, node: string, entries: map<string, PvcStatus>, ns: string)
    requires ns in entries
  {
    if owner == Agent then
      var l := Labels(ns, if |entries| > 1 then "" else node);
      Mounted(c, l, entries[ns]) || Vanishing(c, l, entries[ns])
    else InUse(c, "", ns, entries[ns].pvcName)
  }

  lemma HeldExactly(c: Cluster, v: AgentSpec.View, entries: map<string, PvcStatus>, ns: string)
    requires Unique(c) && ns in entries
    ensures var d := AgentSpec.Release(c, v, entries, ns);
            !d.err && (!d.updated ==> d.c == c && d.e == entries[ns] && (d.held <==> MustStay(c, v.owner, v.node, entries, ns))
                                      && (d.held ==> d.e.cond == Deleting))
  {
    UniqueDelete(c, entries[ns], Agent, AgentSpec.DeleteScope(v, entries, ns));
    AttemptReports(c, entries[ns], Agent, AgentSpec.DeleteScope(v, entries, ns));
    InUseExactly(c, "", ns, entries[ns].pvcName);
    A.ReleaseIdle(c, v, entries, ns);
  }

  /** What a release changes, it changes for good. */
  lemma ReleaseChanges(v: AgentSpec.View, c: Cluster, entries: map<string, PvcStatus>, c': Cluster, entries': map<string, PvcStatus>, ns: string)
    requires A.Releases(v, c, entries, c', entries', ns)
    ensures c' != c || entries' != entries
  {
    var d := AgentSpec.Release(c, v, entries, ns);
    if d.updated {
      assert entries'[ns] == d.e;
      if v.owner == Agent {
        AttemptShrinksSupply(c, entries[ns], Agent, AgentSpec.DeleteScope(v, entries, ns));
      }
    } else {
      assert ns !in entries';
    }
  }

  /** From position `k` on some entry is listed. */
  ghost predicate SomeFrom(v: AgentSpec.View, entries: map<string, PvcStatus>, k: nat) {
    exists j :: k <= j < |v.cfg.namespaces| && v.cfg.namespaces[j] in entries
  }

  /** All entries from position `k` on have to stay. */
  ghost predicate StayFrom(v: AgentSpec.View, c: Cluster, entries: map<string, PvcStatus>, k: nat) {
    forall j :: k <= j < |v.cfg.namespaces| && v.cfg.namespaces[j] in entries ==>
      entries[v.cfg.namespaces[j]].cond == Deleting && MustStay(c, v.owner, v.node, entries, v.cfg.namespaces[j])
  }

  /** A loop that changes nothing: every entry stays, and the node counts only while it has its finalizer. */
  lemma {:induction false} StayLoop(v: AgentSpec.View, s: AgentSpec.Loop, k: nat)
    requires Unique(s.c) && k <= |v.cfg.namespaces| && !s.updated && !AgentSpec.ReleaseFrom(v, s, k).updated
    ensures StayFrom(v, s.c, s.entries, k)
    ensures var r := AgentSpec.ReleaseFrom(v, s, k);
            if SomeFrom(v, s.entries, k) then r.inUse && r.cnts.nodeCnt == (if v.finalizer then 1 else 0)
            else r.inUse == s.inUse && r.cnts == s.cnts
    decreases |v.cfg.namespaces| - k
  {
    if k < |v.cfg.namespaces| {
      var ns := v.cfg.namespaces[k];
      if ns !in s.entries {
        StayLoop(v, s, k + 1);
      } else {
        HeldExactly(s.c, v, s.entries, ns);
        var d := AgentSpec.Release(s.c, v, s.entries, ns);
        assert !d.updated && d.held;
        var a := AgentSpec.AddCounts(d.c, v, ns, d.e, s.cnts);
        StayLoop(v, s.(c := d.c, inUse := true, cnts := a.cnts), k + 1);
      }
    }
  }

  /**
   * What an agent leaves of a cache that is being deleted: no finalizer, and in the status either nothing or only entries
   * that have to stay, with the node no longer counted.
   */
  ghost predicate LetGo(c: Cluster, owner: PvcOwner, nd: CacheNode) {
    && !nd.finalizer
    && (nd.listed.Some? ==>
          && nd.listed.value != map[] && nd.counts.nodeCnt == 0
          && forall ns :: ns in nd.listed.value ==>
               nd.listed.value[ns].cond == Deleting && MustStay(c, owner, nd.nodeName, nd.listed.value, ns))
  }

  /** The node object is there and carries its node name. */
  ghost predicate SetUp(cfg: Config, w: World, i: nat) {
    i < |cfg.nodeNames| && i < |w.nodes| && w.nodes[i].Some? && w.nodes[i].value.nodeName == cfg.nodeNames[i]
  }

  ghost predicate Ending(cfg: Config, w: World) {
    Good(cfg, w) && w.cache.deleting && !w.cache.gone
  }

  lemma BodyRests(v: AgentSpec.View, c: Cluster, nd: CacheNode)
    requires Unique(c) && v.deleting && v.owner != Unknown && v.finalizer == nd.finalizer && v.node == nd.nodeName
    requires forall ns :: ns in A.Held(nd) ==> ns in v.cfg.namespaces
    requires AgentSpec.PassBody(v, c, nd, true) == AgentSpec.Pass(c, nd)
    ensures LetGo(c, v.owner, nd)
  {
    if nd.listed.Some? {
      var start := AgentSpec.StartLoop(c, nd.listed);
      var ns := A.ReleaseLoop(v, start, 0);
      var s := AgentSpec.RunLoop(v, start);
      if s.updated {
        ReleaseChanges(v, c, nd.listed.value, s.c, s.entries, ns);
        assert false;
      }
      StayLoop(v, start, 0);
      assert s.inUse && !nd.finalizer && s.cnts == nd.counts;
      forall n | n in nd.listed.value
        ensures nd.listed.value[n].cond == Deleting && MustStay(c, v.owner, nd.nodeName, nd.listed.value, n)
      {
        assert n in A.Held(nd);
        var j :| 0 <= j < |v.cfg.namespaces| && v.cfg.namespaces[j] == n;
      }
    }
  }

  /** An agent that has nothing to do has let go. */
  lemma AgentRests(cfg: Config, w: World, i: nat, uid: string)
    requires Ending(cfg, w) && SetUp(cfg, w, i) && AgentSpec.AgentPass(cfg, w, i, uid, true) == w
    ensures LetGo(w.c, w.cache.owner, w.nodes[i].value)
  {
    var nd := w.nodes[i].value;
    assert NodeShape(cfg, w.cache, cfg.nodeNames[i], nd);
    var (c, nd') := AgentSpec.NodePass(cfg, w, i, uid, true);
    assert w.nodes[i := nd'][i] == nd';
    if w.cache.owner != Unknown {
      forall ns | ns in A.Held(nd) ensures ns in cfg.namespaces {
        assert EntryShape(cfg, w.cache, nd, ns, nd.listed.value[ns]);
      }
      BodyRests(AgentSpec.NodeView(cfg, w, i, uid), w.c, nd);
    }
  }

  // ---------- The operator ----------

  /** One turn of the loop over a deleting cache changes the entry or the cluster for good. */
  lemma TearChanges(v: OperatorSpec.View, c: Cluster, entries: map<string, PvcStatus>, ns: string)
    requires Unique(c) && ns in entries
    ensures var r := ManageDelete(c, entries[ns], Operator, Labels(ns, ""));
            && !r.err && r.e.cond == entries[ns].cond
            && (if r.updated then !r.inUse && !r.deleting && (r.c != c || r.e != entries[ns]) else r.c == c && r.e == entries[ns])
  {
    var e, l := entries[ns], Labels(ns, "");
    UniqueDelete(c, e, Operator, l);
    AttemptShrinksSupply(c, e, Operator, l);
    ManageDeleteQuiet(c, e, Operator, l);
    ObjectProofs.DeleteRenames(c, e, Operator, l);
  }

  /** The loop over a deleting cache stops with a change, or it changes nothing. */
  lemma {:induction false} TearLoop(v: OperatorSpec.View, s: OperatorSpec.Loop, k: nat) returns (ns: string)
    requires v.deleting && Unique(s.c) && k <= |v.cfg.namespaces| && !s.updated
    ensures var r := OperatorSpec.LoopFrom(v, s, k);
            if r.updated then O.Releases(v, s.c, s.entries, r.c, r.entries, ns) && (r.c != s.c || r.entries != s.entries)
            else O.Same(s, r)
    decreases |v.cfg.namespaces| - k
  {
    ns := "";
    if k < |v.cfg.namespaces| {
      ns := v.cfg.namespaces[k];
      if ns !in s.entries {
        ns := TearLoop(v, s, k + 1);
      } else {
        TearChanges(v, s.c, s.entries, ns);
        var r := ManageDelete(s.c, s.entries[ns], Operator, Labels(ns, ""));
        if (r.inUse || r.deleting) && r.e.cond == Deleting {
          ns := TearLoop(v, s.(c := r.c, pvcDeleting := r.deleting, updated := false), k + 1);
        } else {
          assert s.entries[ns := r.e][ns] == r.e && s.entries[ns := r.e.(cond := Deleting)][ns].cond == Deleting;
          assert ns !in s.entries - {ns};
        }
      }
    }
  }

  /** The entry has to stay in the status of the cache. */
  ghost predicate StaysListed(c: Cluster, entries: map<string, PvcStatus>, ns: string)
    requires ns in entries
  {
    && entries[ns].cond == Deleting
    && (Mounted(c, Labels(ns, ""), entries[ns]) || Vanishing(c, Labels(ns, ""), entries[ns]))
  }

  ghost predicate NoneFrom(spaces: seq<string>, entries: map<string, PvcStatus>, k: nat) {
    forall j :: k <= j < |spaces| ==> spaces[j] !in entries
  }

  /** Of the entries from position `k` on, the last one has a claim that is vanishing. */
  ghost predicate LastVanishes(c: Cluster, spaces: seq<string>, entries: map<string, PvcStatus>, k: nat) {
    exists j: nat :: k <= j < |spaces| && spaces[j] in entries && NoneFrom(spaces, entries, j + 1)
                     && Vanishing(c, Labels(spaces[j], ""), entries[spaces[j]])
  }

  /** A loop that changes nothing: every entry stays, and the last one decides whether a pending deletion is reported. */
  lemma {:induction false} ListedLoop(v: OperatorSpec.View, s: OperatorSpec.Loop, k: nat)
    requires v.deleting && Unique(s.c) && k <= |v.cfg.namespaces| && !s.updated && !OperatorSpec.LoopFrom(v, s, k).updated
    ensures forall j :: k <= j < |v.cfg.namespaces| && v.cfg.namespaces[j] in s.entries ==>
                          StaysListed(s.c, s.entries, v.cfg.namespaces[j])
    ensures OperatorSpec.LoopFrom(v, s, k).pvcDeleting
            <==> LastVanishes(s.c, v.cfg.namespaces, s.entries, k) || (s.pvcDeleting && NoneFrom(v.cfg.namespaces, s.entries, k))
    decreases |v.cfg.namespaces| - k
  {
    if k < |v.cfg.namespaces| {
      var ns := v.cfg.namespaces[k];
      if ns !in s.entries {
        ListedLoop(v, s, k + 1);
      } else {
        TearChanges(v, s.c, s.entries, ns);
        AttemptReports(s.c, s.entries[ns], Operator, Labels(ns, ""));
        var r := ManageDelete(s.c, s.entries[ns], Operator, Labels(ns, ""));
        ListedLoop(v, s.(c := r.c, pvcDeleting := r.deleting, updated := false), k + 1);
        LastSplits(s.c, v.cfg.namespaces, s.entries, k);
      }
    }
  }

  lemma LastSplits(c: Cluster, spaces: seq<string>, entries: map<string, PvcStatus>, k: nat)
    requires k < |spaces| && spaces[k] in entries
    ensures LastVanishes(c, spaces, entries, k)
            <==> LastVanishes(c, spaces, entries, k + 1)
                 || (NoneFrom(spaces, entries, k + 1) && Vanishing(c, Labels(spaces[k], ""), entries[spaces[k]]))
  {
  }

  /** No node that lists the cache counts any more. */
  ghost predicate NoNodeCounts(w: World) {
    forall n :: 0 <= n < |w.nodes| && w.nodes[n].Some? && w.nodes[n].value.listed.Some? ==> w.nodes[n].value.counts.nodeCnt == 0
  }

  lemma {:induction false} NodeCntZero(nodes: seq<Option<CacheNode>>, count: nat)
    requires count <= |nodes|
    ensures OperatorSpec.SumCounts(nodes, count).nodeCnt == 0 <==>
            forall n :: 0 <= n < count && nodes[n].Some? && nodes[n].value.listed.Some? ==> nodes[n].value.counts.nodeCnt == 0
  {
    if count > 0 {
      NodeCntZero(nodes, count - 1);
    }
  }

  /** The pass does nothing but, perhaps, let the cache go. */
  ghost predicate OnlyLetsGo(w: World, w': World) {
    w' == w.(cache := w.cache.(gone := w'.cache.gone, finalizer := w'.cache.finalizer))
  }

  ghost function TearOf(cfg: Config, w: World, uid: string): OperatorSpec.Loop {
    OperatorSpec.LoopFrom(OperatorSpec.PassView(cfg, w, OperatorSpec.StartStatus(w), uid), OperatorSpec.Loop(w.c, w.cache.entries, false, false), 0)
  }

  lemma SettledPass(cfg: Config, w: World, uid: string)
    requires Ending(cfg, w) && OnlyLetsGo(w, OperatorSpec.OperatorPass(cfg, w, uid, true))
    ensures !TearOf(cfg, w, uid).updated && OperatorSpec.Finished(w, OperatorSpec.StartStatus(w)) == w.cache
    ensures OperatorSpec.OperatorPass(cfg, w, uid, true).cache.gone
            <==> OperatorSpec.Collected(w).nodeCnt == 0 && !TearOf(cfg, w, uid).pvcDeleting
  {
    var st := OperatorSpec.StartStatus(w);
    var v := OperatorSpec.PassView(cfg, w, st, uid);
    var ns := TearLoop(v, OperatorSpec.Loop(w.c, w.cache.entries, false, false), 0);
  }

  /**
   * When entries and status are settled, every entry that is left has to stay, and the pass lets the cache go if and only
   * if no node counts any more and the claim of the last entry in the order of the namespaces is not vanishing.
   */
  lemma LetsGoExactlyWhen(cfg: Config, w: World, uid: string)
    requires Ending(cfg, w) && OnlyLetsGo(w, OperatorSpec.OperatorPass(cfg, w, uid, true))
    ensures w.cache.owner != Unknown && forall ns :: ns in w.cache.entries ==> StaysListed(w.c, w.cache.entries, ns)
    ensures OperatorSpec.OperatorPass(cfg, w, uid, true).cache.gone
            <==> NoNodeCounts(w) && !LastVanishes(w.c, cfg.namespaces, w.cache.entries, 0)
  {
    SettledPass(cfg, w, uid);
    NodeCntZero(w.nodes, |w.nodes|);
    var v := OperatorSpec.PassView(cfg, w, OperatorSpec.StartStatus(w), uid);
    ListedLoop(v, OperatorSpec.Loop(w.c, w.cache.entries, false, false), 0);
    forall ns | ns in w.cache.entries ensures StaysListed(w.c, w.cache.entries, ns) {
      var j :| 0 <= j < |cfg.namespaces| && cfg.namespaces[j] == ns;
    }
  }

  // ---------- All controllers ----------

  /** No pass of any controller changes anything. */
  ghost predicate AllRest(cfg: Config, w: World)
    requires |w.nodes| == |cfg.nodeNames|
  {
    && OperatorSpec.OperatorPass(cfg, w, "", true) == w
    && forall i: nat :: i < |w.nodes| ==> AgentSpec.AgentPass(cfg, w, i, "", true) == w
  }

  /** A claim of the operator is no longer mounted, but the cluster has not removed it yet. */
  ghost predicate ClaimVanishing(cfg: Config, w: World) {
    exists ns :: ns in w.cache.entries && w.cache.entries[ns].cond == Deleting && Vanishing(w.c, Labels(ns, ""), w.cache.entries[ns])
  }

  /** When all controllers rest the cache is gone, unless the cluster still has to remove a claim of the operator. */
  lemma RestIsTheEnd(cfg: Config, w: World)
    requires Good(cfg, w) && (w.cache.deleting || w.cache.gone) && AllRest(cfg, w)
    ensures w.cache.gone || ClaimVanishing(cfg, w)
    ensures !w.cache.gone ==> forall i: nat :: SetUp(cfg, w, i) ==> LetGo(w.c, w.cache.owner, w.nodes[i].value)
  {
    if !w.cache.gone {
      LetsGoExactlyWhen(cfg, w, "");
      forall i: nat | SetUp(cfg, w, i) ensures LetGo(w.c, w.cache.owner, w.nodes[i].value) {
        AgentRests(cfg, w, i, "");
      }
      forall n | 0 <= n < |w.nodes| && w.nodes[n].Some? && w.nodes[n].value.listed.Some?
        ensures w.nodes[n].value.counts.nodeCnt == 0
      {
        assert NodeShape(cfg, w.cache, cfg.nodeNames[n], w.nodes[n].value);
        assert SetUp(cfg, w, n);
      }
      assert LastVanishes(w.c, cfg.namespaces, w.cache.entries, 0);
    }
  }
}
