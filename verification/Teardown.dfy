/** Teardown over whole runs: what a controller may delete, in which order, and what an entry leaves behind. */
module Teardown {
  import opened ApiTypes
  import opened Kube
  import opened Fleet
  import opened Protocol
  import opened Invariants
  import opened ObjectProofs
  import opened Linkage
  import opened LinkProofs
  import AgentSpec
  import A = AgentFacts
  import AgentMoves
  import AgentProofs
  import OperatorSpec
  import O = OperatorFacts
  import OperatorProofs

  // ---------- One attempt ----------

  ghost predicate PvMarked(c: Cluster, d: Cluster, n: string) {
    n in c.pvs && n in d.pvs && !c.pvs[n].terminating && d.pvs[n].terminating
  }

  ghost predicate PvcMarked(c: Cluster, d: Cluster, k: ObjKey) {
    k in c.pvcs && k in d.pvcs && !c.pvcs[k].terminating && d.pvcs[k].terminating
  }

  ghost predicate JobMarked(c: Cluster, d: Cluster, k: ObjKey) {
    k in c.jobs && k in d.jobs && !c.jobs[k].terminating && d.jobs[k].terminating
  }

  /** An entry whose names lead to objects labelled `l`, whose owner is the caller, in a cluster with unique objects. */
  ghost predicate Attempt(cfg: Config, c: Cluster, e: PvcStatus, caller: PvcOwner, l: Labels) {
    && Unique(c) && Named(cfg, c) && NamesFit(cfg, c) && OneJob(c) && Linked(c, l, e) && LeadsToJob(c, l, e)
    && caller == e.owner && (l.node == "" ==> e.pvcName in {"", cfg.cache})
  }

  /** The claim an entry records is labelled like the entry. */
  lemma ClaimLabels(cfg: Config, c: Cluster, e: PvcStatus, caller: PvcOwner, l: Labels)
    requires Attempt(cfg, c, e, caller, l) && e.pvcName != "" && ObjKey(l.ns, e.pvcName) in c.pvcs
    ensures c.pvcs[ObjKey(l.ns, e.pvcName)].labels == l
  {
    var k := ObjKey(l.ns, e.pvcName);
    assert c.pvcs[k].labels.node != "" ==> Given(c, k.name, c.pvcs[k].labels);
  }

  lemma JobAttempt(cfg: Config, c: Cluster, e: PvcStatus, caller: PvcOwner, l: Labels, k: ObjKey)
    requires Attempt(cfg, c, e, caller, l) && JobMarked(c, ManageDelete(c, e, caller, l).c, k)
    ensures Labels(k.ns, c.jobs[k].node) == l
  {
    if !DeleteJob(c, e, caller, l).updated {
      MarksStay(c, e, caller, l);
    }
  }

  lemma JobFrame(c: Cluster, e: PvcStatus, caller: PvcOwner, l: Labels)
    ensures var d := DeleteJob(c, e, caller, l).c; d.pvcs == c.pvcs && d.pvs == c.pvs
  {
  }

  lemma PvcFrame(c: Cluster, e: PvcStatus, caller: PvcOwner, l: Labels)
    ensures var d := DeletePvc(c, e, caller, l).c; d.jobs == c.jobs && d.pvs == c.pvs
  {
  }

  lemma PvFrame(c: Cluster, e: PvcStatus, caller: PvcOwner, l: Labels)
    ensures var d := DeletePv(c, e, caller, l).c; d.jobs == c.jobs && d.pvcs == c.pvcs
  {
  }

  /** Each stage of an attempt touches one kind of object. */
  lemma Stages(c: Cluster, e: PvcStatus, caller: PvcOwner, l: Labels)
    ensures var d := DeleteJob(c, e, caller, l).c; d.pvcs == c.pvcs && d.pvs == c.pvs
    ensures var d := DeletePvc(c, e, caller, l).c; d.jobs == c.jobs && d.pvs == c.pvs
    ensures var d := DeletePv(c, e, caller, l).c; d.jobs == c.jobs && d.pvcs == c.pvcs
  {
    JobFrame(c, e, caller, l);
    PvcFrame(c, e, caller, l);
    PvFrame(c, e, caller, l);
  }

  lemma PvcStage(cfg: Config, c: Cluster, e: PvcStatus, caller: PvcOwner, l: Labels, k: ObjKey)
    requires Attempt(cfg, c, e, caller, l) && PvcMarked(c, DeletePvc(c, e, caller, l).c, k)
    ensures c.pvcs[k].labels == l && UseCount(c.pods, l.node, l.ns, k.name) == 0
  {
    if e.pvcName != "" {
      ClaimLabels(cfg, c, e, caller, l);
    } else {
      assert PvcLookup(c, e.pvcName, l).Adopted?;
      assert k == Only(PvcMatches(c, l));
      assert k in PvcMatches(c, l);
    }
  }

  lemma PvcAttempt(cfg: Config, c: Cluster, e: PvcStatus, caller: PvcOwner, l: Labels, k: ObjKey)
    requires Attempt(cfg, c, e, caller, l) && PvcMarked(c, ManageDelete(c, e, caller, l).c, k)
    ensures c.pvcs[k].labels == l && k.ns == l.ns && JobGone(c, l) && Unmounted(c.pods, l.node, l.ns, k.name)
  {
    Stages(c, e, caller, l);
    PastTheJob(cfg, c, e, caller, l);
    PvcStage(cfg, c, e, caller, l, k);
    ZeroUseIsUnmounted(c.pods, l.node, l.ns, k.name);
  }

  /** The claim's turn is over only when none with these labels is left, not even a terminating one. */
  lemma PastTheClaim(c: Cluster, e: PvcStatus, caller: PvcOwner, l: Labels)
    requires Unique(c) && caller == e.owner
    requires var p := DeletePvc(c, e, caller, l); !p.updated && !p.inUse && !p.deleting
    ensures PvcMatches(c, l) == {} && e.pvcName == ""
  {
    UniqueLookups(c, l);
  }

  lemma PvStage(cfg: Config, c: Cluster, e: PvcStatus, caller: PvcOwner, l: Labels, n: string)
    requires Attempt(cfg, c, e, caller, l) && PvMarked(c, DeletePv(c, e, caller, l).c, n)
    ensures c.pvs[n].labels == l
  {
    if e.pvName == "" {
      assert PvLookup(c, e.pvName, l).Adopted?;
      assert n == Only(PvMatches(c, l));
      assert n in PvMatches(c, l);
    } else {
      assert Given(c, n, c.pvs[n].labels);
    }
  }

  lemma PvAttempt(cfg: Config, c: Cluster, e: PvcStatus, caller: PvcOwner, l: Labels, n: string)
    requires Attempt(cfg, c, e, caller, l) && PvMarked(c, ManageDelete(c, e, caller, l).c, n)
    ensures c.pvs[n].labels == l && JobGone(c, l) && PvcMatches(c, l) == {}
  {
    Stages(c, e, caller, l);
    PastTheJob(cfg, c, e, caller, l);
    UniquePvcDelete(c, e, caller, l);
    PastTheClaim(c, e, caller, l);
    PvStage(cfg, c, e, caller, l, n);
  }

  /** No live object is left, and no claim at all. */
  ghost predicate Clean(c: Cluster, l: Labels) {
    && JobGone(c, l)
    && PvcMatches(c, l) == {}
    && (forall n :: n in c.pvs && c.pvs[n].labels == l ==> c.pvs[n].terminating)
  }

  lemma NoPvLeft(cfg: Config, c: Cluster, e: PvcStatus, caller: PvcOwner, l: Labels, n: string)
    requires Attempt(cfg, c, e, caller, l) && !DeletePv(c, e, caller, l).updated
    requires n in c.pvs && c.pvs[n].labels == l
    ensures c.pvs[n].terminating
  {
    assert n in PvMatches(c, l);
    if e.pvName == "" {
      assert PvMatches(c, l) == {n};
    } else {
      assert Given(c, e.pvName, c.pvs[e.pvName].labels);
    }
  }

  /** An attempt with nothing to do and nothing in the way has cleaned up. */
  lemma NothingLeft(cfg: Config, c: Cluster, e: PvcStatus, caller: PvcOwner, l: Labels)
    requires Attempt(cfg, c, e, caller, l)
    requires var r := ManageDelete(c, e, caller, l); !r.updated && !r.inUse && !r.deleting
    ensures Clean(c, l)
  {
    PastTheJob(cfg, c, e, caller, l);
    UniquePvcDelete(c, e, caller, l);
    PastTheClaim(c, e, caller, l);
    forall n | n in c.pvs && c.pvs[n].labels == l ensures c.pvs[n].terminating {
      NoPvLeft(cfg, c, e, caller, l, n);
    }
  }

  // ---------- One pass ----------

  ghost predicate NothingMarked(c: Cluster, d: Cluster) {
    && (forall n :: !PvMarked(c, d, n))
    && (forall k :: !PvcMarked(c, d, k))
    && (forall k :: !JobMarked(c, d, k))
  }

  lemma EnsureMarksNothing(c: Cluster, kind: bool, e: PvcStatus, l: Labels, pvName: string, pvcName: string)
    ensures NothingMarked(c, EnsureVolume(c, kind, e, l, pvName, pvcName).c)
  {
  }

  lemma AgentModifyMarks(c: Cluster, v: AgentSpec.View, ns: string, e: PvcStatus)
    ensures NothingMarked(c, AgentSpec.Modify(c, v, ns, e).c)
  {
    A.ModifyIdle(c, v, ns, e);
    if !AgentSpec.Modify(c, v, ns, e).err {
      var l := Labels(ns, v.node);
      var move := AgentMoves.ModifyMove(c, v, ns, e);
      EnsureMarksNothing(c, v.cfg.kind, e, l, UniqueName(v.cfg.cache, v.uid), AgentSpec.ClaimName(v.cfg, e, v.uid));
    }
  }

  lemma AgentBodyMarks(v: AgentSpec.View, c: Cluster, nd: CacheNode, writeOk: bool) returns (ns: string)
    ensures var d := AgentSpec.PassBody(v, c, nd, writeOk).c;
            || NothingMarked(c, d)
            || (&& ns in Holds(Some(nd)) && v.owner == Agent && v.deleting
                && d == ManageDelete(c, Holds(Some(nd))[ns], Agent, AgentSpec.DeleteScope(v, Holds(Some(nd)), ns)).c)
  {
    ns := "";
    var x := A.BodyEffect(v, c, nd, writeOk);
    if x.Modified? {
      AgentModifyMarks(c, v, x.ns, A.EntryOr(v, A.Held(nd), x.ns));
    } else if x.Released? {
      ns := x.ns;
    }
  }

  /** A pass of an agent deletes nothing, or it makes one attempt on one of its entries. */
  lemma AgentPassMarks(cfg: Config, w: World, i: nat, uid: string, writeOk: bool) returns (ns: string)
    requires i < |cfg.nodeNames| == |w.nodes|
    ensures var d := AgentSpec.AgentPass(cfg, w, i, uid, writeOk).c;
            || NothingMarked(w.c, d)
            || (&& HasEntry(w, i, ns) && w.cache.owner == Agent && w.cache.deleting
                && w.nodes[i].value.nodeName == cfg.nodeNames[i] && !w.cache.gone
                && d == ManageDelete(w.c, Entry(w, i, ns), Agent,
                                     AgentSpec.DeleteScope(AgentSpec.NodeView(cfg, w, i, uid), w.nodes[i].value.listed.value, ns)).c)
  {
    ns := "";
    if !w.cache.gone && w.nodes[i].Some? && w.nodes[i].value.nodeName == cfg.nodeNames[i] {
      ns := AgentBodyMarks(AgentSpec.NodeView(cfg, w, i, uid), w.c, w.nodes[i].value, writeOk);
    }
  }

  lemma OperatorModifyMarks(c: Cluster, v: OperatorSpec.View, ns: string, e: PvcStatus)
    requires v.owner == Agent || v.owner == Operator
    ensures NothingMarked(c, OperatorSpec.Modify(c, v, ns, e).c)
  {
    O.ModifyIdle(c, v, ns, e);
    if !OperatorSpec.Modify(c, v, ns, e).err {
      var move := OperatorProofs.ModifyMove(c, v, ns, e);
      EnsureMarksNothing(c, v.cfg.kind, e.(cond := Pending), Labels(ns, ""), UniqueName(v.cfg.cache, v.uid), v.cfg.cache);
    }
  }

  lemma OperatorPassMarks(cfg: Config, w: World, uid: string, writeOk: bool) returns (ns: string)
    ensures var d := OperatorSpec.OperatorPass(cfg, w, uid, writeOk).c;
            || NothingMarked(w.c, d)
            || (ns in w.cache.entries && d == ManageDelete(w.c, w.cache.entries[ns], Operator, Labels(ns, "")).c)
  {
    ns := "";
    var x := O.PassEffect(cfg, w, uid, writeOk);
    if x.Modified? {
      var v := OperatorSpec.PassView(cfg, w, OperatorSpec.StartStatus(w), uid);
      OperatorModifyMarks(w.c, v, x.ns, O.EntryOr(w.cache.entries, x.ns));
    } else if x.Released? {
      ns := x.ns;
    }
  }

  lemma AgentAttempt(cfg: Config, w: World, i: nat, uid: string, ns: string)
    requires Good(cfg, w) && i < |cfg.nodeNames| && HasEntry(w, i, ns) && w.cache.owner == Agent && OneSpace(cfg)
    requires w.nodes[i].value.nodeName == cfg.nodeNames[i] && !w.cache.gone
    ensures Attempt(cfg, w.c, Entry(w, i, ns), Agent, Labels(ns, cfg.nodeNames[i]))
  {
    assert NodeShape(cfg, w.cache, cfg.nodeNames[i], w.nodes[i].value);
    assert EntryShape(cfg, w.cache, w.nodes[i].value, ns, Entry(w, i, ns));
    HeldLeads(cfg, w, i, ns);
    assert NodeLinked(cfg, w, i);
  }

  lemma OperatorAttempt(cfg: Config, w: World, ns: string)
    requires Good(cfg, w) && ns in w.cache.entries
    ensures Attempt(cfg, w.c, w.cache.entries[ns], Operator, Labels(ns, ""))
  {
    OperatorLeads(cfg, w, ns);
  }

  // ---------- Whole runs ----------

  /** Who may delete objects with these labels: the agent of that node for a cache it owns, the operator for its own. */
  ghost predicate Acts(cfg: Config, w: World, step: Step, l: Labels) {
    match step
    case AgentStep(i, _, _) => w.cache.owner == Agent && w.cache.deleting && i < |cfg.nodeNames| && l.node == cfg.nodeNames[i]
    case OperatorStep(_, _) => l.node == ""
    case _ => false
  }

  ghost predicate Controls(step: Step) {
    step.AgentStep? || step.OperatorStep?
  }

  /** With different namespaces an agent queries blank node labels, see TwoNamespaces. */
  ghost predicate OwnLabels(cfg: Config, step: Step) {
    (step.AgentStep? && OneSpace(cfg)) || step.OperatorStep?
  }

  /** Whatever a pass deletes, it deletes by one attempt on an entry with the labels of the actor. */
  lemma PassAttempt(cfg: Config, ws: seq<World>, steps: seq<Step>, t: nat) returns (e: PvcStatus, caller: PvcOwner, l: Labels)
    requires Run(cfg, ws, steps) && t < |steps| && OwnLabels(cfg, steps[t])
    ensures NothingMarked(ws[t].c, ws[t + 1].c)
            || (&& Acts(cfg, ws[t], steps[t], l) && Attempt(cfg, ws[t].c, e, caller, l)
                && ws[t + 1].c == ManageDelete(ws[t].c, e, caller, l).c)
  {
    var w := ws[t];
    RunGood(cfg, ws, steps, t);
    e, caller, l := NewEntry(Unknown), Unknown, Labels("", "");
    match steps[t]
    case AgentStep(i, uid, writeOk) =>
      var ns := AgentPassMarks(cfg, w, i, uid, writeOk);
      if !NothingMarked(w.c, ws[t + 1].c) {
        e, caller, l := Entry(w, i, ns), Agent, Labels(ns, cfg.nodeNames[i]);
        AgentAttempt(cfg, w, i, uid, ns);
        OwnScopeHere(cfg, w, i, uid, ns);
      }
    case OperatorStep(uid, writeOk) =>
      var ns := OperatorPassMarks(cfg, w, uid, writeOk);
      if !NothingMarked(w.c, ws[t + 1].c) {
        e, caller, l := w.cache.entries[ns], Operator, Labels(ns, "");
        OperatorAttempt(cfg, w, ns);
      }
  }

  lemma OwnScopeHere(cfg: Config, w: World, i: nat, uid: string, ns: string)
    requires Good(cfg, w) && i < |cfg.nodeNames| && HasEntry(w, i, ns) && OneSpace(cfg)
    requires w.nodes[i].value.nodeName == cfg.nodeNames[i]
    ensures AgentSpec.DeleteScope(AgentSpec.NodeView(cfg, w, i, uid), w.nodes[i].value.listed.value, ns)
            == Labels(ns, cfg.nodeNames[i])
  {
    var nd := w.nodes[i].value;
    assert NodeShape(cfg, w.cache, cfg.nodeNames[i], nd);
    assert forall n :: n in nd.listed.value ==> EntryShape(cfg, w.cache, nd, n, nd.listed.value[n]);
    OneEntry(cfg, nd.listed.value);
  }

  // ---------- Agents, with any number of namespaces ----------

  /** An attempt of an agent on an entry it holds; the scope may have its node name blanked. */
  ghost predicate AgentTries(cfg: Config, w: World, i: nat, ns: string, scope: Labels) {
    && Good(cfg, w) && i < |cfg.nodeNames| && HasEntry(w, i, ns) && w.cache.owner == Agent
    && (scope == Labels(ns, cfg.nodeNames[i]) || scope == Labels(ns, ""))
  }

  /** No Job of an Agent-owned cache carries an empty node label, and a recorded name leads to the entry's own Job. */
  lemma OwnJobMarked(cfg: Config, w: World, i: nat, ns: string, scope: Labels, k: ObjKey)
    requires AgentTries(cfg, w, i, ns, scope) && JobMarked(w.c, ManageDelete(w.c, Entry(w, i, ns), Agent, scope).c, k)
    ensures Labels(k.ns, w.c.jobs[k].node) == Labels(ns, cfg.nodeNames[i])
  {
    var e := Entry(w, i, ns);
    assert NodeLinked(cfg, w, i);
    if !DeleteJob(w.c, e, Agent, scope).updated {
      MarksStay(w.c, e, Agent, scope);
    } else if e.jobName == "" {
      assert k in MatchingJobs(w.c, scope, e.pvcName);
    }
  }

  /** The claim an attempt marks: the recorded one, or the one the labels lead to. */
  lemma MarkedByDelete(c: Cluster, e: PvcStatus, caller: PvcOwner, l: Labels, k: ObjKey)
    requires PvcMarked(c, DeletePvc(c, e, caller, l).c, k)
    ensures UseCount(c.pods, l.node, l.ns, k.name) == 0
    ensures if e.pvcName != "" then k == ObjKey(l.ns, e.pvcName) else c.pvcs[k].labels == l
  {
    if e.pvcName == "" {
      assert PvcLookup(c, e.pvcName, l).Adopted?;
      assert k == Only(PvcMatches(c, l)) && k in PvcMatches(c, l);
    }
  }

  /** A claim that an agent marks is labelled for it or for the operator, and no unfinished pod of the node mounts it. */
  lemma MarkedUnused(cfg: Config, w: World, i: nat, ns: string, scope: Labels, k: ObjKey)
    requires AgentTries(cfg, w, i, ns, scope) && PvcMarked(w.c, ManageDelete(w.c, Entry(w, i, ns), Agent, scope).c, k)
    ensures k.ns == ns && w.c.pvcs[k].labels.ns == ns && w.c.pvcs[k].labels.node in {"", cfg.nodeNames[i]}
    ensures Unmounted(w.c.pods, cfg.nodeNames[i], k.ns, k.name)
  {
    Stages(w.c, Entry(w, i, ns), Agent, scope);
    MarkedByDelete(w.c, Entry(w, i, ns), Agent, scope, k);
    MarkedLabels(cfg, w, i, ns, scope, k);
    ZeroUseIsUnmounted(w.c.pods, scope.node, ns, k.name);
  }

  lemma MarkedLabels(cfg: Config, w: World, i: nat, ns: string, scope: Labels, k: ObjKey)
    requires AgentTries(cfg, w, i, ns, scope) && k in w.c.pvcs
    requires if Entry(w, i, ns).pvcName != "" then k == ObjKey(ns, Entry(w, i, ns).pvcName) else w.c.pvcs[k].labels == scope
    ensures k.ns == ns && w.c.pvcs[k].labels.ns == ns && w.c.pvcs[k].labels.node in {"", cfg.nodeNames[i]} && k.name != ""
  {
    assert NodeLinked(cfg, w, i);
    assert w.c.pvcs[k].labels.node != "" ==> Given(w.c, k.name, w.c.pvcs[k].labels);
  }

  lemma AgentTried(cfg: Config, ws: seq<World>, steps: seq<Step>, t: nat) returns (ns: string, scope: Labels)
    requires Run(cfg, ws, steps) && t < |steps| && steps[t].AgentStep?
    ensures NothingMarked(ws[t].c, ws[t + 1].c)
            || (&& AgentTries(cfg, ws[t], steps[t].node, ns, scope) && ws[t].cache.deleting
                && ws[t + 1].c == ManageDelete(ws[t].c, Entry(ws[t], steps[t].node, ns), Agent, scope).c)
  {
    var i, uid := steps[t].node, steps[t].uid;
    RunGood(cfg, ws, steps, t);
    ns := AgentPassMarks(cfg, ws[t], i, uid, steps[t].writeOk);
    scope := Labels(ns, "");
    if !NothingMarked(ws[t].c, ws[t + 1].c) {
      scope := AgentSpec.DeleteScope(AgentSpec.NodeView(cfg, ws[t], i, uid), ws[t].nodes[i].value.listed.value, ns);
    }
  }

  /** A controller deletes only extract Jobs labelled for itself. */
  lemma JobTeardown(cfg: Config, ws: seq<World>, steps: seq<Step>, t: nat, k: ObjKey)
    requires Run(cfg, ws, steps) && t < |steps| && Controls(steps[t])
    requires JobMarked(ws[t].c, ws[t + 1].c, k)
    ensures Acts(cfg, ws[t], steps[t], Labels(k.ns, ws[t].c.jobs[k].node))
  {
    if steps[t].AgentStep? {
      var ns, scope := AgentTried(cfg, ws, steps, t);
      OwnJobMarked(cfg, ws[t], steps[t].node, ns, scope, k);
    } else {
      var e, caller, l := PassAttempt(cfg, ws, steps, t);
      JobAttempt(cfg, ws[t].c, e, caller, l, k);
    }
  }

  /** The node whose pods a controller has to spare: its own for an agent, all of them for the operator. */
  ghost function Spared(cfg: Config, step: Step): string {
    if step.AgentStep? && step.node < |cfg.nodeNames| then cfg.nodeNames[step.node] else ""
  }

  /**
   * Use safety: whatever the namespaces are, a claim is deleted only when no unfinished pod mounts it, of the agent's own
   * node or of any node, and never when it is labelled for another node.
   */
  lemma PvcUnused(cfg: Config, ws: seq<World>, steps: seq<Step>, t: nat, k: ObjKey)
    requires Run(cfg, ws, steps) && t < |steps| && Controls(steps[t])
    requires PvcMarked(ws[t].c, ws[t + 1].c, k)
    ensures Unmounted(ws[t].c.pods, Spared(cfg, steps[t]), k.ns, k.name)
    ensures ws[t].c.pvcs[k].labels.ns == k.ns && ws[t].c.pvcs[k].labels.node in {"", Spared(cfg, steps[t])}
  {
    if steps[t].AgentStep? {
      var ns, scope := AgentTried(cfg, ws, steps, t);
      MarkedUnused(cfg, ws[t], steps[t].node, ns, scope, k);
    } else {
      var e, caller, l := PassAttempt(cfg, ws, steps, t);
      PvcAttempt(cfg, ws[t].c, e, caller, l, k);
    }
  }

  // ---------- Order and labels, with one namespace ----------

  /** A claim is deleted only by the controller it is labelled for, and only when no Job that extracts into it is live. */
  lemma PvcTeardown(cfg: Config, ws: seq<World>, steps: seq<Step>, t: nat, k: ObjKey)
    requires Run(cfg, ws, steps) && t < |steps| && OwnLabels(cfg, steps[t])
    requires PvcMarked(ws[t].c, ws[t + 1].c, k)
    ensures var l := ws[t].c.pvcs[k].labels;
            Acts(cfg, ws[t], steps[t], l) && JobGone(ws[t].c, l)
  {
    var e, caller, l := PassAttempt(cfg, ws, steps, t);
    PvcAttempt(cfg, ws[t].c, e, caller, l, k);
  }

  /** A PV is deleted only by the controller it is labelled for, after its Jobs, and when no claim has its labels any more. */
  lemma PvTeardown(cfg: Config, ws: seq<World>, steps: seq<Step>, t: nat, n: string)
    requires Run(cfg, ws, steps) && t < |steps| && OwnLabels(cfg, steps[t])
    requires PvMarked(ws[t].c, ws[t + 1].c, n)
    ensures var l := ws[t].c.pvs[n].labels;
            Acts(cfg, ws[t], steps[t], l) && JobGone(ws[t].c, l) && PvcMatches(ws[t].c, l) == {}
  {
    var e, caller, l := PassAttempt(cfg, ws, steps, t);
    PvAttempt(cfg, ws[t].c, e, caller, l, n);
  }

  // ---------- Nothing is left behind ----------

  /** What must be true when the entry of a namespace leaves the status of a node. */
  ghost predicate Droppable(cfg: Config, w: World, i: nat, ns: string)
    requires i < |cfg.nodeNames| && HasEntry(w, i, ns)
  {
    && w.cache.deleting
    && (w.cache.owner == Agent && OneSpace(cfg) ==> Clean(w.c, Labels(ns, cfg.nodeNames[i])))
    && (w.cache.owner == Operator && Entry(w, i, ns).pvcName != "" ==> Unmounted(w.c.pods, "", ns, Entry(w, i, ns).pvcName))
  }

  lemma ReleaseDrops(cfg: Config, w: World, i: nat, uid: string, ns: string)
    requires Good(cfg, w) && AgentProofs.Ready(cfg, w, i, uid) && HasEntry(w, i, ns) && w.cache.deleting
    requires w.cache.owner != Unknown
    requires var d := AgentSpec.Release(w.c, AgentSpec.NodeView(cfg, w, i, uid), w.nodes[i].value.listed.value, ns);
             !d.err && !d.updated && !d.held
    ensures Droppable(cfg, w, i, ns)
  {
    if w.cache.owner == Agent {
      if OneSpace(cfg) {
        AgentAttempt(cfg, w, i, uid, ns);
        OwnScopeHere(cfg, w, i, uid, ns);
        NothingLeft(cfg, w.c, Entry(w, i, ns), Agent, Labels(ns, cfg.nodeNames[i]));
      }
    } else if Entry(w, i, ns).pvcName != "" {
      ZeroUseIsUnmounted(w.c.pods, "", ns, Entry(w, i, ns).pvcName);
    }
  }

  lemma AgentDrops(cfg: Config, w: World, i: nat, uid: string, writeOk: bool, ns: string)
    requires Good(cfg, w) && i < |cfg.nodeNames| && HasEntry(w, i, ns)
    requires !HasEntry(AgentSpec.AgentPass(cfg, w, i, uid, writeOk), i, ns)
    requires FreshUid(w.c.log, uid)
    ensures Droppable(cfg, w, i, ns)
  {
    assert NodeShape(cfg, w.cache, cfg.nodeNames[i], w.nodes[i].value);
    var v := AgentSpec.NodeView(cfg, w, i, uid);
    var nd := w.nodes[i].value;
    var p := AgentSpec.PassBody(v, w.c, nd, writeOk);
    var x := A.BodyEffect(v, w.c, nd, writeOk);
    assert ns !in Holds(Some(p.nd)) && ns in Holds(w.nodes[i]);
    if !x.Modified? && !x.Released? {
      QuietHolds(cfg, w, i, uid, p, x);
    }
    ReleaseDrops(cfg, w, i, uid, ns);
  }

  /**
   * No leak on a node. An entry leaves a node's status only while the cache is being deleted and only in a pass of that
   * node's agent. If the agents own the cache, no claim labelled for the entry exists then, not even a terminating one, and
   * no Job or PV so labelled is live. If the operator owns it, no pod mounts the recorded claim any more.
   */
  lemma NodeEntryDropped(cfg: Config, ws: seq<World>, steps: seq<Step>, t: nat, i: nat, ns: string)
    requires Run(cfg, ws, steps) && t < |steps| && i < |cfg.nodeNames|
    requires HasEntry(ws[t], i, ns) && !HasEntry(ws[t + 1], i, ns)
    ensures steps[t].AgentStep? && steps[t].node == i && Droppable(cfg, ws[t], i, ns)
  {
    RunGood(cfg, ws, steps, t);
    if steps[t].OperatorStep? {
      var x := O.PassEffect(cfg, ws[t], steps[t].uid, steps[t].writeOk);
    }
    if steps[t].AgentStep? && steps[t].node == i {
      AgentDrops(cfg, ws[t], i, steps[t].uid, steps[t].writeOk, ns);
    }
  }

  lemma EffectDrops(cfg: Config, w: World, uid: string, w': World, x: O.Effect, ns: string)
    requires Inv(cfg, w) && O.Did(cfg, w, uid, w', x) && ns in w.cache.entries && ns !in w'.cache.entries
    ensures var r := ManageDelete(w.c, w.cache.entries[ns], Operator, Labels(ns, ""));
            !r.err && !r.updated && !r.inUse && !r.deleting
  {
    assert x.Released? && x.ns == ns;
  }

  lemma OperatorDrops(cfg: Config, w: World, uid: string, writeOk: bool, ns: string)
    requires Good(cfg, w) && ns in w.cache.entries && ns !in OperatorSpec.OperatorPass(cfg, w, uid, writeOk).cache.entries
    ensures var r := ManageDelete(w.c, w.cache.entries[ns], Operator, Labels(ns, ""));
            !r.err && !r.updated && !r.inUse && !r.deleting
  {
    var x := O.PassEffect(cfg, w, uid, writeOk);
    EffectDrops(cfg, w, uid, OperatorSpec.OperatorPass(cfg, w, uid, writeOk), x, ns);
  }

  lemma OnlyOperatorWrites(cfg: Config, w: World, step: Step)
    requires Enabled(cfg, w, step) && !step.OperatorStep?
    ensures Apply(cfg, w, step).cache.entries == w.cache.entries
  {
  }

  /** No leak for the operator: an entry leaves the cache's status only when nothing labelled for it is left. */
  lemma CacheEntryDropped(cfg: Config, ws: seq<World>, steps: seq<Step>, t: nat, ns: string)
    requires Run(cfg, ws, steps) && t < |steps|
    requires ns in ws[t].cache.entries && ns !in ws[t + 1].cache.entries
    ensures steps[t].OperatorStep? && Clean(ws[t].c, Labels(ns, ""))
  {
    if steps[t].OperatorStep? {
      RunGood(cfg, ws, steps, t);
      OperatorDrops(cfg, ws[t], steps[t].uid, steps[t].writeOk, ns);
      OperatorAttempt(cfg, ws[t], ns);
      NothingLeft(cfg, ws[t].c, ws[t].cache.entries[ns], Operator, Labels(ns, ""));
    } else {
      OnlyOperatorWrites(cfg, ws[t], steps[t]);
    }
  }
}
