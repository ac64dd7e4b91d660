/** Every step keeps names linked and live Jobs reachable from their entries. */
module LinkProofs {
  import opened ApiTypes
  import opened Kube
  import opened Fleet
  import opened Protocol
  import Sums
  import opened Invariants
  import opened ObjectProofs
  import opened Linkage
  import AgentSpec
  import A = AgentFacts
  import AgentMoves
  import AgentProofs
  import OperatorSpec
  import O = OperatorFacts
  import OperatorProofs
  import RunProofs

  ghost predicate Good(cfg: Config, w: World) {
    Inv(cfg, w) && Links(cfg, w) && LiveJobs(cfg, w)
  }

  // ---------- Agent passes ----------

  /** Only what the nodes hold matters. */
  lemma SameHolds(cfg: Config, w: World, i: nat, nd: Option<CacheNode>)
    requires Links(cfg, w) && LiveJobs(cfg, w) && i < |w.nodes| && Holds(nd) == Holds(w.nodes[i])
    ensures Links(cfg, w.(nodes := w.nodes[i := nd])) && LiveJobs(cfg, w.(nodes := w.nodes[i := nd]))
  {
    var w' := w.(nodes := w.nodes[i := nd]);
    forall j: nat | j < |w.nodes| && w.cache.owner == Agent ensures NodeLinked(cfg, w', j) {
      assert NodeLinked(cfg, w, j);
    }
    forall k | k in w.c.jobs && AgentJobHeld(cfg, w, k) ensures AgentJobHeld(cfg, w', k) {
      var j: nat :| j < |cfg.nodeNames| && cfg.nodeNames[j] == w.c.jobs[k].node && HasEntry(w, j, k.ns)
                    && Entry(w, j, k.ns).pvcName == w.c.jobs[k].pvc;
      assert k.ns in Holds(w.nodes[j]);
      assert HasEntry(w', j, k.ns) && Entry(w', j, k.ns).pvcName == w.c.jobs[k].pvc;
    }
  }

  lemma QuietHolds(cfg: Config, w: World, i: nat, uid: string, p: AgentSpec.Pass, x: A.Effect)
    requires AgentProofs.Ready(cfg, w, i, uid)
    requires !x.Modified? && !x.Released?
    requires A.Did(AgentSpec.NodeView(cfg, w, i, uid), w.c, w.nodes[i].value, p, x)
    ensures p.c == w.c && Holds(Some(p.nd)) == Holds(w.nodes[i])
  {
    var nd := w.nodes[i].value;
    var v := AgentSpec.NodeView(cfg, w, i, uid);
    if x.Forgotten? {
      var entries := nd.listed.value;
      assert NodeShape(cfg, w.cache, cfg.nodeNames[i], nd);
      forall ns ensures ns !in entries {
        if ns in entries {
          assert EntryShape(cfg, w.cache, nd, ns, entries[ns]);
          var j :| 0 <= j < |cfg.namespaces| && v.cfg.namespaces[j] == ns;
          UniqueDelete(w.c, entries[ns], Agent, AgentSpec.DeleteScope(v, entries, ns));
          assert false;
        }
      }
    }
  }

  lemma MovedFits(cfg: Config, c: Cluster, v: AgentSpec.View, ns: string, e: PvcStatus, m: Managed, move: AgentMoves.Move)
    requires NamesFit(cfg, c) && v.cfg == cfg && v.node != "" && FreshUid(c.log, v.uid)
    requires AgentMoves.Moved(c, v, ns, e, m, move) && !m.err
    requires v.owner == Agent ==> Linked(c, Labels(ns, v.node), e)
    ensures NamesFit(cfg, m.c) && Extends(c, m.c)
    ensures v.owner == Agent ==> Linked(m.c, Labels(ns, v.node), m.e)
  {
    var l := Labels(ns, v.node);
    FreshUnique(cfg, c, v.uid);
    match move
    case Volume => EnsureFits(cfg, c, cfg.kind, e, l, UniqueName(cfg.cache, v.uid), AgentSpec.ClaimName(cfg, e, v.uid));
    case Launch =>
      FreshJobName(c.log, e.pvcName + "-job-download-", v.uid);
      AddJobFits(cfg, c, e.pvcName + "-job-download-" + v.uid, l, e.pvcName, Agent);
    case _ =>
  }

  /** The entry a pass starts from is linked: either it is recorded, or it has no names yet. */
  lemma StartLinked(cfg: Config, w: World, i: nat, uid: string, ns: string)
    requires Links(cfg, w) && AgentProofs.Ready(cfg, w, i, uid)
    ensures w.cache.owner == Agent ==>
              Linked(w.c, Labels(ns, cfg.nodeNames[i]), A.EntryOr(AgentSpec.NodeView(cfg, w, i, uid), A.Held(w.nodes[i].value), ns))
  {
    assert w.cache.owner == Agent ==> NodeLinked(cfg, w, i);
  }

  lemma ModifiedFits(cfg: Config, w: World, i: nat, uid: string, c: Cluster, entries: map<string, PvcStatus>, ns: string)
    requires Links(cfg, w) && AgentProofs.Ready(cfg, w, i, uid)
    requires var v := AgentSpec.NodeView(cfg, w, i, uid);
             A.Touches(v, w.c, A.Held(w.nodes[i].value), c, entries, ns)
    ensures NamesFit(cfg, c) && Extends(w.c, c)
    ensures w.cache.owner == Agent ==> Linked(c, Labels(ns, cfg.nodeNames[i]), entries[ns])
  {
    var v := AgentSpec.NodeView(cfg, w, i, uid);
    var e := A.EntryOr(v, A.Held(w.nodes[i].value), ns);
    var move := AgentMoves.ModifyMove(w.c, v, ns, e);
    StartLinked(cfg, w, i, uid, ns);
    MovedFits(cfg, w.c, v, ns, e, AgentSpec.Modify(w.c, v, ns, e), move);
  }

  lemma EntriesPut(cfg: Config, w: World, i: nat, nd: CacheNode)
    requires Links(cfg, w) && i < |w.nodes|
    requires w.cache.owner == Agent ==> EntriesLinked(w.c, cfg.nodeNames[i], Holds(Some(nd)))
    ensures Links(cfg, w.(nodes := w.nodes[i := Some(nd)]))
  {
    var w' := w.(nodes := w.nodes[i := Some(nd)]);
    forall j: nat | j < |w.nodes| && w.cache.owner == Agent ensures NodeLinked(cfg, w', j) {
      if j != i {
        assert NodeLinked(cfg, w, j);
      }
    }
  }

  lemma ModifiedLinks(cfg: Config, w: World, i: nat, uid: string, p: AgentSpec.Pass, x: A.Effect)
    requires Good(cfg, w) && AgentProofs.Ready(cfg, w, i, uid)
    requires x.Modified? && A.Did(AgentSpec.NodeView(cfg, w, i, uid), w.c, w.nodes[i].value, p, x)
    ensures Links(cfg, AgentProofs.Put(w, i, p))
  {
    ModifiedFits(cfg, w, i, uid, p.c, x.entries, x.ns);
    LinksExtend(cfg, w, p.c);
    assert w.cache.owner == Agent ==> NodeLinked(cfg, w.(c := p.c), i);
    EntriesPut(cfg, w.(c := p.c), i, p.nd);
  }

  lemma ModifiedLive(cfg: Config, w: World, i: nat, uid: string, p: AgentSpec.Pass, x: A.Effect)
    requires Good(cfg, w) && AgentProofs.Ready(cfg, w, i, uid) && Inv(cfg, AgentProofs.Put(w, i, p))
    requires x.Modified? && A.Did(AgentSpec.NodeView(cfg, w, i, uid), w.c, w.nodes[i].value, p, x)
    ensures LiveJobs(cfg, AgentProofs.Put(w, i, p))
  {
    var w' := AgentProofs.Put(w, i, p);
    var v := AgentSpec.NodeView(cfg, w, i, uid);
    var e := A.EntryOr(v, A.Held(w.nodes[i].value), x.ns);
    var move := AgentMoves.ModifyMove(w.c, v, x.ns, e);
    AgentProofs.ModifiedObjects(cfg, w, i, uid, x.ns, e, AgentSpec.Modify(w.c, v, x.ns, e), move);
    forall k | k in w'.c.jobs && w'.c.jobs[k].node != "" ensures AgentJobHeld(cfg, w', k) {
      assert JobBacked(cfg, w', k.ns, w'.c.jobs[k]);
    }
  }

  lemma RenamedLinked(c: Cluster, l: Labels, e: PvcStatus, e': PvcStatus)
    requires Linked(c, l, e) && Renamed(e, e'.(cond := e.cond))
    ensures Linked(c, l, e')
  {
  }

  lemma ReleasedEntriesLinked(c: Cluster, v: AgentSpec.View, entries: map<string, PvcStatus>, c': Cluster,
                              entries': map<string, PvcStatus>, ns: string)
    requires EntriesLinked(c, v.node, entries) && A.Releases(v, c, entries, c', entries', ns)
    ensures Shrinks(c, c') && Marks(c, c') && EntriesLinked(c', v.node, entries')
  {
    AgentProofs.ReleaseEntry(c, v, entries, ns);
    RenamedLinked(c, Labels(ns, v.node), entries[ns], AgentSpec.Release(c, v, entries, ns).e);
    forall n | n in entries' ensures Linked(c', Labels(n, v.node), entries'[n]) {
      assert n != ns ==> Linked(c, Labels(n, v.node), entries[n]);
    }
  }

  lemma ReleasedLinks(cfg: Config, w: World, i: nat, uid: string, p: AgentSpec.Pass, x: A.Effect)
    requires Good(cfg, w) && AgentProofs.Ready(cfg, w, i, uid)
    requires x.Released? && A.Did(AgentSpec.NodeView(cfg, w, i, uid), w.c, w.nodes[i].value, p, x)
    ensures Links(cfg, AgentProofs.Put(w, i, p))
  {
    var v := AgentSpec.NodeView(cfg, w, i, uid);
    AgentProofs.ReleaseEntry(w.c, v, w.nodes[i].value.listed.value, x.ns);
    ShrinkFits(cfg, w.c, p.c);
    LinksExtend(cfg, w, p.c);
    if w.cache.owner == Agent {
      assert NodeLinked(cfg, w, i) && NodeLinked(cfg, w.(c := p.c), i);
      ReleasedEntriesLinked(w.c, v, Holds(w.nodes[i]), p.c, x.entries, x.ns);
    }
    EntriesPut(cfg, w.(c := p.c), i, p.nd);
  }

  lemma OneEntry(cfg: Config, entries: map<string, PvcStatus>)
    requires OneSpace(cfg) && forall ns :: ns in entries ==> ns in cfg.namespaces
    ensures |entries| <= 1
  {
    if ns :| ns in entries {
      assert entries.Keys <= {ns};
      Sums.SubsetSize(entries.Keys, {ns});
    }
  }

  /** With one namespace an agent's teardown queries its own node's labels. */
  lemma OwnScope(cfg: Config, w: World, i: nat, uid: string, ns: string)
    requires Inv(cfg, w) && AgentProofs.Ready(cfg, w, i, uid) && HasEntry(w, i, ns) && OneSpace(cfg)
    ensures AgentSpec.DeleteScope(AgentSpec.NodeView(cfg, w, i, uid), w.nodes[i].value.listed.value, ns)
            == Labels(ns, cfg.nodeNames[i])
    ensures Entry(w, i, ns).owner == w.cache.owner
  {
    var nd := w.nodes[i].value;
    assert NodeShape(cfg, w.cache, cfg.nodeNames[i], nd);
    assert forall n :: n in nd.listed.value ==> EntryShape(cfg, w.cache, nd, n, nd.listed.value[n]);
    OneEntry(cfg, nd.listed.value);
  }

  lemma HeldLeads(cfg: Config, w: World, i: nat, ns: string)
    requires Good(cfg, w) && HasEntry(w, i, ns) && OneSpace(cfg) && i < |cfg.nodeNames|
    ensures LeadsToJob(w.c, Labels(ns, cfg.nodeNames[i]), Entry(w, i, ns))
  {
    forall k | k in w.c.jobs && k.ns == ns && w.c.jobs[k].node == cfg.nodeNames[i] && !w.c.jobs[k].terminating
      ensures w.c.jobs[k].pvc == Entry(w, i, ns).pvcName
    {
      assert AgentJobHeld(cfg, w, k);
    }
  }

  /** An agent's attempt on its own entry clears or drops the claim name only after the Job is gone. */
  lemma AttemptPastJob(cfg: Config, w: World, i: nat, uid: string, ns: string)
    requires Good(cfg, w) && AgentProofs.Ready(cfg, w, i, uid) && HasEntry(w, i, ns) && OneSpace(cfg)
    requires w.cache.owner == Agent
    ensures var l := Labels(ns, cfg.nodeNames[i]);
            var r := ManageDelete(w.c, Entry(w, i, ns), Agent, l);
            r.e.pvcName != Entry(w, i, ns).pvcName || !r.updated ==> JobGone(r.c, l) && JobGone(w.c, l)
  {
    OwnScope(cfg, w, i, uid, ns);
    HeldLeads(cfg, w, i, ns);
    assert NodeLinked(cfg, w, i);
    DeleteLeavesNoJob(cfg, w.c, Entry(w, i, ns), Agent, Labels(ns, cfg.nodeNames[i]));
  }

  /** The claim name of the released entry is kept, or its Job is gone; other entries are not touched. */
  lemma ReleasedClaim(cfg: Config, w: World, i: nat, uid: string, p: AgentSpec.Pass, x: A.Effect)
    requires Good(cfg, w) && AgentProofs.Ready(cfg, w, i, uid) && OneSpace(cfg) && w.cache.owner == Agent
    requires x.Released? && A.Did(AgentSpec.NodeView(cfg, w, i, uid), w.c, w.nodes[i].value, p, x)
    ensures var after := Holds(Some(p.nd));
            || JobGone(p.c, Labels(x.ns, cfg.nodeNames[i]))
            || (x.ns in after && after[x.ns].pvcName == Entry(w, i, x.ns).pvcName)
    ensures var after := Holds(Some(p.nd));
            forall n :: HasEntry(w, i, n) && n != x.ns ==> n in after && after[n] == Entry(w, i, n)
  {
    assert HasEntry(w, i, x.ns);
    OwnScope(cfg, w, i, uid, x.ns);
    AttemptPastJob(cfg, w, i, uid, x.ns);
  }

  lemma NodeJobMeansAgent(cfg: Config, w: World, k: ObjKey)
    requires Inv(cfg, w) && k in w.c.jobs && w.c.jobs[k].node != ""
    ensures w.cache.owner == Agent
  {
  }

  lemma ReleasedHeld(cfg: Config, w: World, i: nat, uid: string, p: AgentSpec.Pass, x: A.Effect, k: ObjKey)
    requires Good(cfg, w) && AgentProofs.Ready(cfg, w, i, uid) && OneSpace(cfg) && Marks(w.c, p.c)
    requires x.Released? && A.Did(AgentSpec.NodeView(cfg, w, i, uid), w.c, w.nodes[i].value, p, x)
    requires k in p.c.jobs && p.c.jobs[k].node != "" && !p.c.jobs[k].terminating && AgentJobHeld(cfg, w, k)
    ensures AgentJobHeld(cfg, AgentProofs.Put(w, i, p), k)
  {
    NodeJobMeansAgent(cfg, w, k);
    ReleasedClaim(cfg, w, i, uid, p, x);
    StillHeld(cfg, w, i, p, x.ns, k);
  }

  lemma ReleasedLive(cfg: Config, w: World, i: nat, uid: string, p: AgentSpec.Pass, x: A.Effect)
    requires Good(cfg, w) && AgentProofs.Ready(cfg, w, i, uid)
    requires x.Released? && A.Did(AgentSpec.NodeView(cfg, w, i, uid), w.c, w.nodes[i].value, p, x)
    ensures LiveJobs(cfg, AgentProofs.Put(w, i, p))
  {
    AgentProofs.ReleaseEntry(w.c, AgentSpec.NodeView(cfg, w, i, uid), w.nodes[i].value.listed.value, x.ns);
    JobsStay(cfg, w, w.(c := p.c));
    var w' := AgentProofs.Put(w, i, p);
    if OneSpace(cfg) {
      forall k | k in p.c.jobs && p.c.jobs[k].node != "" && !p.c.jobs[k].terminating ensures AgentJobHeld(cfg, w', k) {
        ReleasedHeld(cfg, w, i, uid, p, x, k);
      }
    }
  }

  /** Live Jobs of the later state are live Jobs of the earlier one; what holds them is the same. */
  lemma JobsStay(cfg: Config, w: World, w': World)
    requires LiveJobs(cfg, w) && w'.nodes == w.nodes && w'.cache.entries == w.cache.entries
    requires forall k :: k in w'.c.jobs && !w'.c.jobs[k].terminating ==>
                           && k in w.c.jobs && !w.c.jobs[k].terminating
                           && w.c.jobs[k].node == w'.c.jobs[k].node && w.c.jobs[k].pvc == w'.c.jobs[k].pvc
    ensures LiveJobs(cfg, w')
  {
    forall k | k in w'.c.jobs && k in w.c.jobs && AgentJobHeld(cfg, w, k) && !w'.c.jobs[k].terminating
      ensures AgentJobHeld(cfg, w', k)
    {
      var j: nat :| j < |cfg.nodeNames| && cfg.nodeNames[j] == w.c.jobs[k].node && HasEntry(w, j, k.ns)
                    && Entry(w, j, k.ns).pvcName == w.c.jobs[k].pvc;
      assert HasEntry(w', j, k.ns) && Entry(w', j, k.ns).pvcName == w'.c.jobs[k].pvc;
    }
  }

  lemma StillHeld(cfg: Config, w: World, i: nat, p: AgentSpec.Pass, ns: string, k: ObjKey)
    requires i < |w.nodes| == |cfg.nodeNames| && HasEntry(w, i, ns) && Marks(w.c, p.c)
    requires var after := Holds(Some(p.nd));
             || JobGone(p.c, Labels(ns, cfg.nodeNames[i]))
             || (ns in after && after[ns].pvcName == Entry(w, i, ns).pvcName)
    requires var after := Holds(Some(p.nd));
             forall n :: HasEntry(w, i, n) && n != ns ==> n in after && after[n] == Entry(w, i, n)
    requires k in p.c.jobs && !p.c.jobs[k].terminating && AgentJobHeld(cfg, w, k)
    ensures AgentJobHeld(cfg, AgentProofs.Put(w, i, p), k)
  {
    var w' := AgentProofs.Put(w, i, p);
    var j: nat :| j < |cfg.nodeNames| && cfg.nodeNames[j] == w.c.jobs[k].node && HasEntry(w, j, k.ns)
                  && Entry(w, j, k.ns).pvcName == w.c.jobs[k].pvc;
    assert HasEntry(w', j, k.ns) && Entry(w', j, k.ns).pvcName == w.c.jobs[k].pvc;
  }

  lemma AgentGood(cfg: Config, w: World, i: nat, uid: string, writeOk: bool)
    requires Good(cfg, w) && i < |cfg.nodeNames| && FreshUid(w.c.log, uid)
    ensures Good(cfg, AgentSpec.AgentPass(cfg, w, i, uid, writeOk))
  {
    AgentProofs.AgentKeeps(cfg, w, i, uid, writeOk);
    var (c, nd) := AgentSpec.NodePass(cfg, w, i, uid, writeOk);
    if w.cache.gone || w.nodes[i].None? || w.nodes[i].value.nodeName != cfg.nodeNames[i] {
      assert w.nodes[i].Some? ==> NodeShape(cfg, w.cache, cfg.nodeNames[i], w.nodes[i].value);
      SameHolds(cfg, w, i, nd);
    } else {
      var v := AgentSpec.NodeView(cfg, w, i, uid);
      var p := AgentSpec.PassBody(v, w.c, w.nodes[i].value, writeOk);
      var x := A.BodyEffect(v, w.c, w.nodes[i].value, writeOk);
      assert AgentSpec.AgentPass(cfg, w, i, uid, writeOk) == AgentProofs.Put(w, i, p);
      if x.Modified? {
        ModifiedLinks(cfg, w, i, uid, p, x);
        ModifiedLive(cfg, w, i, uid, p, x);
      } else if x.Released? {
        ReleasedLinks(cfg, w, i, uid, p, x);
        ReleasedLive(cfg, w, i, uid, p, x);
      } else {
        QuietHolds(cfg, w, i, uid, p, x);
        SameHolds(cfg, w, i, Some(p.nd));
      }
    }
  }

  // ---------- Operator passes ----------

  /** What the nodes hold is linked whatever owner gets recorded: before that they hold nothing. */
  lemma CacheLinks(cfg: Config, w: World, cache: CacheObj)
    requires Inv(cfg, w) && Links(cfg, w)
    requires cache.owner == w.cache.owner || w.cache.owner == Unknown
    requires EntriesLinked(w.c, "", cache.entries)
    ensures Links(cfg, w.(cache := cache))
  {
    forall j: nat | j < |w.nodes| && cache.owner == Agent ensures NodeLinked(cfg, w.(cache := cache), j) {
      assert w.nodes[j].Some? ==> NodeShape(cfg, w.cache, cfg.nodeNames[j], w.nodes[j].value);
      assert w.cache.owner == Agent ==> NodeLinked(cfg, w, j);
    }
  }

  /** The Jobs of the operator stay held when the entries of other namespaces and the claim name of this one stay. */
  ghost predicate ClaimsStay(c: Cluster, entries: map<string, PvcStatus>, entries': map<string, PvcStatus>, ns: string) {
    && (forall n :: n in entries && n != ns ==> n in entries' && entries'[n] == entries[n])
    && (ns in entries && entries[ns].pvcName != "" ==>
          JobGone(c, Labels(ns, "")) || (ns in entries' && entries'[ns].pvcName == entries[ns].pvcName))
  }

  lemma CacheJobs(cfg: Config, w: World, cache: CacheObj, ns: string)
    requires LiveJobs(cfg, w) && cfg.cache != "" && ClaimsStay(w.c, w.cache.entries, cache.entries, ns)
    ensures LiveJobs(cfg, w.(cache := cache))
  {
    forall k | k in w.c.jobs && AgentJobHeld(cfg, w, k) ensures AgentJobHeld(cfg, w.(cache := cache), k) {
      var j: nat :| j < |cfg.nodeNames| && cfg.nodeNames[j] == w.c.jobs[k].node && HasEntry(w, j, k.ns)
                    && Entry(w, j, k.ns).pvcName == w.c.jobs[k].pvc;
      assert HasEntry(w.(cache := cache), j, k.ns);
    }
  }

  lemma OperatorMovedFits(cfg: Config, c: Cluster, v: OperatorSpec.View, ns: string, e: PvcStatus, m: Managed, move: OperatorProofs.Move)
    requires NamesFit(cfg, c) && v.cfg == cfg && cfg.cache != "" && FreshUid(c.log, v.uid)
    requires e.pvcName in {"", cfg.cache}
    requires OperatorProofs.Moved(c, v, ns, e, m, move) && !m.err
    requires Linked(c, Labels(ns, ""), e)
    ensures NamesFit(cfg, m.c) && Extends(c, m.c) && Linked(m.c, Labels(ns, ""), m.e)
    ensures e.pvcName != "" ==> m.e.pvcName == e.pvcName
  {
    var l := Labels(ns, "");
    FreshUnique(cfg, c, v.uid);
    match move
    case Volume =>
      var e' := e.(cond := Pending);
      EnsureFits(cfg, c, cfg.kind, e', l, UniqueName(cfg.cache, v.uid), cfg.cache);
    case Launch =>
      FreshJobName(c.log, cfg.cache, v.uid);
      AddJobFits(cfg, c, cfg.cache + v.uid, l, cfg.cache, Operator);
    case _ =>
  }

  lemma OperatorModified(cfg: Config, w: World, uid: string, c: Cluster, entries: map<string, PvcStatus>, ns: string)
    requires Good(cfg, w) && FreshUid(w.c.log, uid)
    requires O.Touches(OperatorSpec.PassView(cfg, w, OperatorSpec.StartStatus(w), uid), w.c, w.cache.entries, c, entries, ns)
    ensures NamesFit(cfg, c) && Extends(w.c, c)
    ensures Linked(c, Labels(ns, ""), entries[ns])
    ensures ns in w.cache.entries && w.cache.entries[ns].pvcName != "" ==> entries[ns].pvcName == w.cache.entries[ns].pvcName
  {
    var v := OperatorSpec.PassView(cfg, w, OperatorSpec.StartStatus(w), uid);
    var e := O.EntryOr(w.cache.entries, ns);
    var move := OperatorProofs.ModifyMove(w.c, v, ns, e);
    assert Linked(w.c, Labels(ns, ""), e);
    OperatorMovedFits(cfg, w.c, v, ns, e, OperatorSpec.Modify(w.c, v, ns, e), move);
  }

  lemma OperatorLaunched(cfg: Config, w: World, ns: string, name: string)
    requires LiveJobs(cfg, w) && ns in w.cache.entries && w.cache.entries[ns].pvcName == cfg.cache
    requires ObjKey(ns, name) !in w.c.jobs
    ensures LiveJobs(cfg, w.(c := AddJob(w.c, name, Labels(ns, ""), cfg.cache, Operator)))
  {
    var w' := w.(c := AddJob(w.c, name, Labels(ns, ""), cfg.cache, Operator));
    forall k | k in w.c.jobs && AgentJobHeld(cfg, w, k) ensures AgentJobHeld(cfg, w', k) {
      var j: nat :| j < |cfg.nodeNames| && cfg.nodeNames[j] == w.c.jobs[k].node && HasEntry(w, j, k.ns)
                    && Entry(w, j, k.ns).pvcName == w.c.jobs[k].pvc;
      assert HasEntry(w', j, k.ns);
    }
  }

  lemma OperatorModifiedJobs(cfg: Config, w: World, uid: string, c: Cluster, entries: map<string, PvcStatus>, ns: string)
    requires Good(cfg, w) && FreshUid(w.c.log, uid)
    requires O.Touches(OperatorSpec.PassView(cfg, w, OperatorSpec.StartStatus(w), uid), w.c, w.cache.entries, c, entries, ns)
    ensures LiveJobs(cfg, w.(c := c))
  {
    var v := OperatorSpec.PassView(cfg, w, OperatorSpec.StartStatus(w), uid);
    var e := O.EntryOr(w.cache.entries, ns);
    var m := OperatorSpec.Modify(w.c, v, ns, e);
    var move := OperatorProofs.ModifyMove(w.c, v, ns, e);
    if move.Launch? {
      OperatorProofs.LaunchKeeps(cfg, w, uid, ns, e, m);
      OperatorProofs.NoJobBeforeLaunch(cfg, w, uid, ns, e, m);
      OperatorLaunched(cfg, w, ns, cfg.cache + uid);
    } else {
      JobsKept(cfg, w.c, v, ns, e, m, move);
      JobsStay(cfg, w, w.(c := c));
    }
  }

  lemma JobsKept(cfg: Config, c: Cluster, v: OperatorSpec.View, ns: string, e: PvcStatus, m: Managed, move: OperatorProofs.Move)
    requires OperatorProofs.Moved(c, v, ns, e, m, move) && !move.Launch?
    ensures m.c.jobs == c.jobs
  {
  }

  lemma OperatorLeads(cfg: Config, w: World, ns: string)
    requires Good(cfg, w) && ns in w.cache.entries
    ensures LeadsToJob(w.c, Labels(ns, ""), w.cache.entries[ns])
  {
  }

  lemma OperatorReleased(cfg: Config, w: World, uid: string, c: Cluster, entries: map<string, PvcStatus>, ns: string)
    requires Good(cfg, w)
    requires O.Releases(OperatorSpec.PassView(cfg, w, OperatorSpec.StartStatus(w), uid), w.c, w.cache.entries, c, entries, ns)
    ensures Shrinks(w.c, c) && Marks(w.c, c)
    ensures EntriesLinked(c, "", entries) && ClaimsStay(c, w.cache.entries, entries, ns)
  {
    var e := w.cache.entries[ns];
    var l := Labels(ns, "");
    var r := ManageDelete(w.c, e, Operator, l);
    OperatorLeads(cfg, w, ns);
    DeleteLeavesNoJob(cfg, w.c, e, Operator, l);
    DeleteMarks(w.c, e, Operator, l);
    DeleteRenames(w.c, e, Operator, l);
    ManageDeleteQuiet(w.c, e, Operator, l);
    RenamedLinked(w.c, l, e, r.e);
    forall n | n in entries ensures Linked(c, Labels(n, ""), entries[n]) {
      assert n != ns ==> Linked(w.c, Labels(n, ""), w.cache.entries[n]);
    }
  }

  lemma OperatorGood(cfg: Config, w: World, uid: string, writeOk: bool)
    requires Good(cfg, w) && FreshUid(w.c.log, uid)
    ensures Good(cfg, OperatorSpec.OperatorPass(cfg, w, uid, writeOk))
  {
    var w' := OperatorSpec.OperatorPass(cfg, w, uid, writeOk);
    var x := O.PassEffect(cfg, w, uid, writeOk);
    OperatorProofs.OperatorKeeps(cfg, w, uid, writeOk);
    OperatorEffectGood(cfg, w, uid, w', x);
  }

  lemma OperatorModifiedGood(cfg: Config, w: World, uid: string, w': World, x: O.Effect)
    requires Good(cfg, w) && FreshUid(w.c.log, uid) && O.Did(cfg, w, uid, w', x) && x.Modified?
    ensures Links(cfg, w') && LiveJobs(cfg, w')
  {
    OperatorModified(cfg, w, uid, w'.c, x.entries, x.ns);
    OperatorModifiedJobs(cfg, w, uid, w'.c, x.entries, x.ns);
    LinksExtend(cfg, w, w'.c);
    OperatorProofs.ModifiedStep(cfg, w, uid, w'.c, x.entries, x.ns);
    CachePut(cfg, w.(c := w'.c), w'.cache, x.entries, x.ns);
  }

  lemma OperatorReleasedGood(cfg: Config, w: World, uid: string, w': World, x: O.Effect)
    requires Good(cfg, w) && O.Did(cfg, w, uid, w', x) && x.Released?
    ensures Links(cfg, w') && LiveJobs(cfg, w')
  {
    OperatorReleased(cfg, w, uid, w'.c, x.entries, x.ns);
    ShrinkFits(cfg, w.c, w'.c);
    LinksExtend(cfg, w, w'.c);
    OperatorProofs.ClusterMarked(cfg, w, w'.c);
    JobsStay(cfg, w, w.(c := w'.c));
    CachePut(cfg, w.(c := w'.c), w'.cache, x.entries, x.ns);
  }

  /** The cache object is left alone or written with new entries. */
  lemma CachePut(cfg: Config, w: World, cache: CacheObj, entries: map<string, PvcStatus>, ns: string)
    requires Inv(cfg, w) && Links(cfg, w) && LiveJobs(cfg, w)
    requires cache == w.cache || (cache.entries == entries && (cache.owner == w.cache.owner || w.cache.owner == Unknown))
    requires EntriesLinked(w.c, "", entries) && ClaimsStay(w.c, w.cache.entries, entries, ns)
    ensures Links(cfg, w.(cache := cache)) && LiveJobs(cfg, w.(cache := cache))
  {
    CacheLinks(cfg, w, cache);
    CacheJobs(cfg, w, cache, ns);
  }

  lemma OperatorEffectGood(cfg: Config, w: World, uid: string, w': World, x: O.Effect)
    requires Good(cfg, w) && FreshUid(w.c.log, uid) && O.Did(cfg, w, uid, w', x)
    ensures Links(cfg, w') && LiveJobs(cfg, w')
  {
    match x
    case Modified(_, _) => OperatorModifiedGood(cfg, w, uid, w', x);
    case Released(_, _) => OperatorReleasedGood(cfg, w, uid, w', x);
    case _ => CachePut(cfg, w, w'.cache, w.cache.entries, "");
  }

  // ---------- Every step ----------

  lemma DriftGood(cfg: Config, w: World, d: Cluster)
    requires Good(cfg, w) && Drift(w.c, d)
    ensures Good(cfg, w.(c := d))
  {
    RunProofs.DriftKeeps(cfg, w, d);
    RunProofs.DriftShrinks(w.c, d);
    ShrinkFits(cfg, w.c, d);
    LinksExtend(cfg, w, d);
    JobsStay(cfg, w, w.(c := d));
  }

  lemma QuietGood(cfg: Config, w: World, w': World)
    requires Good(cfg, w) && Inv(cfg, w')
    requires w' == w.(cache := w'.cache, c := w.c.(log := w.c.log.(edited := w'.c.log.edited)))
    requires w'.cache.owner == w.cache.owner && w'.cache.entries == w.cache.entries
    ensures Good(cfg, w')
  {
    ShrinkFits(cfg, w.c, w'.c);
    LinksExtend(cfg, w, w'.c);
    JobsStay(cfg, w, w');
    forall j: nat | j < |w.nodes| && w.cache.owner == Agent ensures NodeLinked(cfg, w', j) {
      assert NodeLinked(cfg, w.(c := w'.c), j);
    }
  }

  lemma StepGood(cfg: Config, w: World, step: Step)
    requires Good(cfg, w) && Enabled(cfg, w, step)
    ensures Good(cfg, Apply(cfg, w, step))
  {
    RunProofs.StepKeeps(cfg, w, step);
    match step
    case AgentStep(i, uid, writeOk) => AgentGood(cfg, w, i, uid, writeOk);
    case OperatorStep(uid, writeOk) => OperatorGood(cfg, w, uid, writeOk);
    case DriftStep(d) => DriftGood(cfg, w, d);
    case _ => QuietGood(cfg, w, Apply(cfg, w, step));
  }

  lemma {:induction false} RunGood(cfg: Config, ws: seq<World>, steps: seq<Step>, t: nat)
    requires Run(cfg, ws, steps) && t < |ws|
    ensures Good(cfg, ws[t])
  {
    if t == 0 {
      InitInv(cfg, ws[0]);
    } else {
      RunGood(cfg, ws, steps, t - 1);
      StepGood(cfg, ws[t - 1], steps[t - 1]);
    }
  }
}
