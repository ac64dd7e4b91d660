/** What the protocol guarantees over whole runs, under every interleaving and with any status write lost. */
module Theorems {
  import opened ApiTypes
  import opened Kube
  import opened Fleet
  import AgentSpec
  import AgentFacts
  import AgentMoves
  import AgentProofs
  import ObjectProofs
  import OperatorSpec
  import OperatorFacts
  import OperatorProofs
  import opened Protocol
  import opened Invariants
  import opened RunProofs

  // ---------- Ownership ----------

  lemma StepOwner(cfg: Config, w: World, step: Step)
    requires Enabled(cfg, w, step) && w.cache.owner != Unknown
    ensures Apply(cfg, w, step).cache.owner == w.cache.owner
  {
    if step.OperatorStep? {
      var x := OperatorFacts.PassEffect(cfg, w, step.uid, step.writeOk);
    }
  }

  lemma OwnerStays(cfg: Config, ws: seq<World>, steps: seq<Step>, t: nat)
    requires Run(cfg, ws, steps) && t < |steps| && ws[t].cache.owner != Unknown
    ensures ws[t + 1].cache.owner == ws[t].cache.owner
  {
    StepOwner(cfg, ws[t], steps[t]);
  }

  ghost function OwnersOf(ws: seq<World>): seq<PvcOwner> {
    seq(|ws|, t requires 0 <= t < |ws| => ws[t].cache.owner)
  }

  ghost predicate Keeps(owners: seq<PvcOwner>, t: nat) {
    t + 1 < |owners| && (owners[t] != Unknown ==> owners[t + 1] == owners[t])
  }

  lemma {:induction false} KnownStays(owners: seq<PvcOwner>, t: nat, u: nat)
    requires t <= u < |owners| && owners[t] != Unknown
    requires forall s: nat :: t <= s < u ==> Keeps(owners, s)
    ensures owners[u] == owners[t]
  {
    if t < u {
      KnownStays(owners, t, u - 1);
      assert Keeps(owners, u - 1);
    }
  }

  /** The recorded owner never changes once it is known. */
  lemma OwnerIsFinal(cfg: Config, ws: seq<World>, steps: seq<Step>, t: nat, u: nat)
    requires Run(cfg, ws, steps) && t <= u < |ws| && ws[t].cache.owner != Unknown
    ensures ws[u].cache.owner == ws[t].cache.owner
  {
    forall s: nat | t <= s < u ensures Keeps(OwnersOf(ws), s) {
      if ws[s].cache.owner != Unknown {
        OwnerStays(cfg, ws, steps, s);
      }
    }
    KnownStays(OwnersOf(ws), t, u);
  }

  /** The owner is decided by the access modes at the moment: the operator if one of them is ReadOnlyMany, else the agents. */
  lemma OwnerIsDecided(cfg: Config, ws: seq<World>, steps: seq<Step>, t: nat)
    requires Run(cfg, ws, steps) && t < |steps| && ws[t].cache.owner == Unknown && ws[t + 1].cache.owner != Unknown
    ensures steps[t].OperatorStep? && steps[t].writeOk
    ensures ws[t + 1].cache.owner == if ReadOnlyMany in ws[t].cache.modes then Operator else Agent
  {
    if steps[t].OperatorStep? {
      var x := OperatorFacts.PassEffect(cfg, ws[t], steps[t].uid, steps[t].writeOk);
    }
  }

  ghost predicate HasCondition(w: World) {
    w.cache.owner != Unknown <==> w.cache.cond.Some?
  }

  lemma StepCondition(cfg: Config, w: World, step: Step)
    requires Enabled(cfg, w, step) && HasCondition(w)
    ensures HasCondition(Apply(cfg, w, step))
  {
  }

  /** The cache has a condition exactly when its owner is known. */
  lemma {:induction false} ConditionIsKnown(cfg: Config, ws: seq<World>, steps: seq<Step>, t: nat)
    requires Run(cfg, ws, steps) && t < |ws|
    ensures HasCondition(ws[t])
  {
    if t > 0 {
      ConditionIsKnown(cfg, ws, steps, t - 1);
      StepCondition(cfg, ws[t - 1], steps[t - 1]);
    }
  }

  lemma JobsTellOwner(cfg: Config, w: World, k: ObjKey)
    requires Inv(cfg, w) && k in w.c.jobs
    ensures w.cache.owner == if w.c.jobs[k].node == "" then Operator else Agent
    ensures w.c.log.launchers == {w.cache.owner}
  {
  }

  /** Over a whole run every extract Job is launched by the same side, and that side is the recorded owner. */
  lemma OneSideLaunches(cfg: Config, ws: seq<World>, steps: seq<Step>, t: nat, u: nat, k: ObjKey, j: ObjKey)
    requires Run(cfg, ws, steps) && t <= u < |ws|
    requires k in ws[t].c.jobs && j in ws[u].c.jobs
    ensures ws[t].c.jobs[k].node == "" <==> ws[u].c.jobs[j].node == ""
    ensures ws[t].cache.owner == ws[u].cache.owner == if ws[t].c.jobs[k].node == "" then Operator else Agent
    ensures ws[u].c.log.launchers == ws[t].c.log.launchers == {ws[t].cache.owner}
  {
    RunInv(cfg, ws, steps, t);
    RunInv(cfg, ws, steps, u);
    JobsTellOwner(cfg, ws[t], k);
    JobsTellOwner(cfg, ws[u], j);
    OwnerIsFinal(cfg, ws, steps, t, u);
  }

  // ---------- Uniqueness ----------

  /** No label tuple ever has two PVs, two PVCs or two extract Jobs, so no lookup is ever ambiguous. */
  lemma ObjectsAreUnique(cfg: Config, ws: seq<World>, steps: seq<Step>, t: nat)
    requires Run(cfg, ws, steps) && t < |ws|
    ensures Unique(ws[t].c) && OneJobPerNode(ws[t])
    ensures forall l, name :: !PvLookup(ws[t].c, name, l).Ambiguous? && !PvcLookup(ws[t].c, name, l).Ambiguous?
  {
    RunInv(cfg, ws, steps, t);
    forall l, name ensures !PvLookup(ws[t].c, name, l).Ambiguous? && !PvcLookup(ws[t].c, name, l).Ambiguous? {
      UniqueLookups(ws[t].c, l);
    }
  }

  // ---------- Truthful conditions ----------

  /** A Job with these labels shows success in the later cluster. */
  ghost predicate ReportedBy(w: World, d: Cluster, l: Labels, k: ObjKey) {
    && k in w.c.jobs && k in d.jobs && k.ns == l.ns && w.c.jobs[k].node == l.node && d.jobs[k].succeeded > 0
  }

  lemma StepSuccess(cfg: Config, w: World, step: Step, l: Labels)
    requires Inv(cfg, w) && Enabled(cfg, w, step)
    requires l in Apply(cfg, w, step).c.log.succeeded && l !in w.c.log.succeeded
    ensures step.DriftStep? && exists k :: ReportedBy(w, step.next, l, k)
  {
    match step
    case AgentStep(i, uid, writeOk) => AgentReports(cfg, w, i, uid, writeOk);
    case OperatorStep(uid, writeOk) => OperatorReports(cfg, w, uid, writeOk);
    case DriftStep(d) =>
      var k :| k in d.jobs && k.ns == l.ns && d.jobs[k].node == l.node && d.jobs[k].succeeded > 0;
      assert ReportedBy(w, d, l, k);
    case _ =>
  }

  /** Controller passes never touch what was reported or edited. */
  ghost predicate Reports(c: Cluster, d: Cluster) {
    d.log.succeeded == c.log.succeeded && d.log.edited == c.log.edited
  }

  lemma AgentBodyReports(v: AgentSpec.View, c: Cluster, nd: CacheNode, writeOk: bool)
    ensures Reports(c, AgentSpec.PassBody(v, c, nd, writeOk).c)
  {
    var x := AgentFacts.BodyEffect(v, c, nd, writeOk);
    if x.Modified? {
      AgentModifyReports(c, v, x.ns, AgentFacts.EntryOr(v, AgentFacts.Held(nd), x.ns));
    } else if x.Released? {
      AgentProofs.ReleaseEntry(c, v, nd.listed.value, x.ns);
    }
  }

  lemma AgentModifyReports(c: Cluster, v: AgentSpec.View, ns: string, e: PvcStatus)
    requires !AgentSpec.Modify(c, v, ns, e).err
    ensures Reports(c, AgentSpec.Modify(c, v, ns, e).c)
  {
    var move := AgentMoves.ModifyMove(c, v, ns, e);
  }

  lemma AgentReports(cfg: Config, w: World, i: nat, uid: string, writeOk: bool)
    requires i < |cfg.nodeNames| && i < |w.nodes|
    ensures Reports(w.c, AgentSpec.AgentPass(cfg, w, i, uid, writeOk).c)
  {
    if !w.cache.gone && w.nodes[i].Some? && w.nodes[i].value.nodeName == cfg.nodeNames[i] {
      AgentBodyReports(AgentSpec.NodeView(cfg, w, i, uid), w.c, w.nodes[i].value, writeOk);
    }
  }

  lemma OperatorModifyReports(c: Cluster, v: OperatorSpec.View, ns: string, e: PvcStatus)
    requires v.owner == Agent || v.owner == Operator
    requires !OperatorSpec.Modify(c, v, ns, e).err
    ensures Reports(c, OperatorSpec.Modify(c, v, ns, e).c)
  {
    var move := OperatorProofs.ModifyMove(c, v, ns, e);
  }

  lemma OperatorReports(cfg: Config, w: World, uid: string, writeOk: bool)
    ensures Reports(w.c, OperatorSpec.OperatorPass(cfg, w, uid, writeOk).c)
  {
    var x := OperatorFacts.PassEffect(cfg, w, uid, writeOk);
    var v := OperatorSpec.PassView(cfg, w, OperatorSpec.StartStatus(w), uid);
    if x.Modified? {
      OperatorModifyReports(w.c, v, x.ns, OperatorFacts.EntryOr(w.cache.entries, x.ns));
    } else if x.Released? {
      ObjectProofs.DeleteMarks(w.c, w.cache.entries[x.ns], Operator, Labels(x.ns, ""));
    }
  }

  // ---------- Serving ----------

  /** No edit of the access modes calls for another owner while none is recorded. */
  ghost predicate Unedited(ws: seq<World>, steps: seq<Step>, t: nat)
    requires t < |ws| == |steps| + 1
  {
    forall s :: 0 <= s < t && steps[s].EditModes? && ws[s].cache.owner == Unknown ==>
                  DetermineOwner(steps[s].modes) == DetermineOwner(ws[s].cache.modes)
  }

  lemma {:induction false} UneditedLog(cfg: Config, ws: seq<World>, steps: seq<Step>, t: nat)
    requires Run(cfg, ws, steps) && t < |ws| && Unedited(ws, steps, t)
    ensures !ws[t].c.log.edited
  {
    if t > 0 {
      UneditedLog(cfg, ws, steps, t - 1);
      match steps[t - 1]
      case AgentStep(i, uid, writeOk) => AgentReports(cfg, ws[t - 1], i, uid, writeOk);
      case OperatorStep(uid, writeOk) => OperatorReports(cfg, ws[t - 1], uid, writeOk);
      case _ =>
    }
  }

  /** Every reported success was shown by a Job labelled for that namespace and node, in a step of the cluster. */
  lemma {:induction false} SuccessHasJob(cfg: Config, ws: seq<World>, steps: seq<Step>, t: nat, l: Labels) returns (s: nat, k: ObjKey)
    requires Run(cfg, ws, steps) && t < |ws| && l in ws[t].c.log.succeeded
    ensures s < t && k in ws[s].c.jobs && k.ns == l.ns && ws[s].c.jobs[k].node == l.node
    ensures k in ws[s + 1].c.jobs && ws[s + 1].c.jobs[k].succeeded > 0 && steps[s].DriftStep?
  {
    if l in ws[t - 1].c.log.succeeded {
      s, k := SuccessHasJob(cfg, ws, steps, t - 1, l);
    } else {
      RunInv(cfg, ws, steps, t - 1);
      StepSuccess(cfg, ws[t - 1], steps[t - 1], l);
      s := t - 1;
      k :| ReportedBy(ws[s], steps[s].next, l, k);
    }
  }

  /**
   * An entry that says Extracted, Running or Outdated is true: the Job that feeds it, the node's own or the operator's, has
   * shown success at an earlier moment of the run.
   */
  lemma ConditionsAreTrue(cfg: Config, ws: seq<World>, steps: seq<Step>, t: nat, i: nat, ns: string) returns (s: nat, k: ObjKey)
    requires Run(cfg, ws, steps) && t < |ws| && HasEntry(ws[t], i, ns)
    requires Entry(ws[t], i, ns).cond in {Extracted, Running, Outdated}
    ensures i < |cfg.nodeNames| && s < t && k.ns == ns
    ensures k in ws[s + 1].c.jobs && ws[s + 1].c.jobs[k].succeeded > 0
    ensures ws[s + 1].c.jobs[k].node == JobNode(ws[t].cache.owner, cfg.nodeNames[i])
  {
    RunInv(cfg, ws, steps, t);
    assert NodeBacked(ws[t], cfg.nodeNames[i], ws[t].nodes[i].value);
    assert EntryBacked(ws[t], cfg.nodeNames[i], ns, Entry(ws[t], i, ns));
    s, k := SuccessHasJob(cfg, ws, steps, t, Labels(ns, JobNode(ws[t].cache.owner, cfg.nodeNames[i])));
  }

  /**
   * Serving safety. For an Agent-owned cache the operator's volume exists only if an extract Job of some node, launched
   * by an agent, showed success at an earlier moment of the run.
   */
  lemma ServingSafety(cfg: Config, ws: seq<World>, steps: seq<Step>, t: nat) returns (s: nat, k: ObjKey)
    requires Run(cfg, ws, steps) && t < |ws|
    requires ws[t].cache.owner == Agent && ServingExists(ws[t].c)
    requires Unedited(ws, steps, t)
    ensures s < t && k in ws[s].c.jobs && ws[s].c.jobs[k].node in cfg.nodeNames
    ensures k in ws[s + 1].c.jobs && ws[s + 1].c.jobs[k].succeeded > 0
    ensures ws[s].c.log.launchers == {Agent}
  {
    RunInv(cfg, ws, steps, t);
    UneditedLog(cfg, ws, steps, t);
    var l :| l in ws[t].c.log.succeeded && l.node != "";
    s, k := SuccessHasJob(cfg, ws, steps, t, l);
    RunInv(cfg, ws, steps, s);
    JobsTellOwner(cfg, ws[s], k);
    assert JobBacked(cfg, ws[s], k.ns, ws[s].c.jobs[k]);
  }

  // ---------- Exactly when serving is safe ----------

  /** The operator's volume is there only after an extract Job of an agent has reported success. */
  ghost predicate Earned(w: World) {
    ServingExists(w.c) ==> AgentSucceeded(w.c)
  }

  lemma AgentServes(cfg: Config, w: World, i: nat, uid: string, writeOk: bool)
    requires Inv(cfg, w) && Enabled(cfg, w, AgentStep(i, uid, writeOk))
    requires ServingExists(AgentSpec.AgentPass(cfg, w, i, uid, writeOk).c)
    ensures ServingExists(w.c)
  {
    if !w.cache.gone && w.nodes[i].Some? && w.nodes[i].value.nodeName == cfg.nodeNames[i] {
      var v, nd := AgentSpec.NodeView(cfg, w, i, uid), w.nodes[i].value;
      var x := AgentFacts.BodyEffect(v, w.c, nd, writeOk);
      if x.Modified? {
        var e := AgentFacts.EntryOr(v, AgentFacts.Held(nd), x.ns);
        var move := AgentMoves.ModifyMove(w.c, v, x.ns, e);
        AgentProofs.ModifiedObjects(cfg, w, i, uid, x.ns, e, AgentSpec.Modify(w.c, v, x.ns, e), move);
      } else if x.Released? {
        AgentProofs.ReleaseEntry(w.c, v, nd.listed.value, x.ns);
      }
    }
  }

  /** Volumes that exist stay when another one is ensured. */
  lemma EnsureAdds(c: Cluster, kind: bool, e: PvcStatus, l: Labels, pvName: string, pvcName: string)
    ensures ServingExists(c) ==> ServingExists(EnsureVolume(c, kind, e, l, pvName, pvcName).c)
  {
    var d := EnsureVolume(c, kind, e, l, pvName, pvcName).c;
    assert forall k :: k in c.pvcs ==> k in d.pvcs && d.pvcs[k] == c.pvcs[k];
    assert forall n :: n in c.pvs ==> n in d.pvs && d.pvs[n] == c.pvs[n];
  }

  lemma OperatorModifyServes(cfg: Config, w: World, uid: string, ns: string, e: PvcStatus)
    requires Inv(cfg, w) && !w.cache.deleting && OperatorSpec.StartStatus(w).owner == Agent
    requires !OperatorSpec.Modify(w.c, OperatorSpec.PassView(cfg, w, OperatorSpec.StartStatus(w), uid), ns, e).err
    ensures var d := OperatorSpec.Modify(w.c, OperatorSpec.PassView(cfg, w, OperatorSpec.StartStatus(w), uid), ns, e).c;
            && (ServingExists(d) ==> ServingExists(w.c) || AgentSucceeded(w.c))
            && (ServingExists(w.c) ==> ServingExists(d))
  {
    var v := OperatorSpec.PassView(cfg, w, OperatorSpec.StartStatus(w), uid);
    var move := OperatorProofs.ModifyMove(w.c, v, ns, e);
    if move.Volume? {
      OperatorProofs.HoldOffMeans(cfg, w, uid);
      EnsureAdds(w.c, cfg.kind, e.(cond := Pending), Labels(ns, ""), UniqueName(cfg.cache, uid), cfg.cache);
    }
  }

  lemma OperatorServes(cfg: Config, w: World, uid: string, writeOk: bool)
    requires Inv(cfg, w) && WantedOwner(w.cache) == Agent
    ensures var d := OperatorSpec.OperatorPass(cfg, w, uid, writeOk).c;
            && (ServingExists(d) ==> ServingExists(w.c) || AgentSucceeded(w.c))
            && (ServingExists(w.c) ==> ServingExists(d))
  {
    var x := OperatorFacts.PassEffect(cfg, w, uid, writeOk);
    if x.Modified? {
      OperatorModifyServes(cfg, w, uid, x.ns, OperatorFacts.EntryOr(w.cache.entries, x.ns));
    } else if x.Released? {
      ObjectProofs.DeleteMarks(w.c, w.cache.entries[x.ns], Operator, Labels(x.ns, ""));
    }
  }

  lemma StepEarned(cfg: Config, w: World, step: Step)
    requires Inv(cfg, w) && Enabled(cfg, w, step) && w.cache.owner == Agent && Earned(w)
    ensures Earned(Apply(cfg, w, step))
  {
    match step
    case AgentStep(i, uid, writeOk) =>
      AgentReports(cfg, w, i, uid, writeOk);
      if ServingExists(Apply(cfg, w, step).c) {
        AgentServes(cfg, w, i, uid, writeOk);
      }
    case OperatorStep(uid, writeOk) =>
      OperatorReports(cfg, w, uid, writeOk);
      OperatorServes(cfg, w, uid, writeOk);
    case DriftStep(d) => DriftShrinks(w.c, d);
    case _ =>
  }

  lemma {:induction false} EarnedStays(cfg: Config, ws: seq<World>, steps: seq<Step>, t: nat, u: nat)
    requires Run(cfg, ws, steps) && t <= u < |ws| && ws[t].cache.owner == Agent && Earned(ws[t])
    ensures Earned(ws[u])
  {
    if t < u {
      EarnedStays(cfg, ws, steps, t, u - 1);
      OwnerIsFinal(cfg, ws, steps, t, u - 1);
      RunInv(cfg, ws, steps, u - 1);
      StepEarned(cfg, ws[u - 1], steps[u - 1]);
    }
  }

  lemma {:induction false} LastUnknown(owners: seq<PvcOwner>, t: nat) returns (f: nat)
    requires t < |owners| && owners[0] == Unknown && owners[t] != Unknown
    ensures f < t && owners[f] == Unknown && owners[f + 1] != Unknown
  {
    f := t - 1;
    if owners[t - 1] != Unknown {
      f := LastUnknown(owners, t - 1);
    }
  }

  /** The owner is recorded in one step of the run. */
  lemma OwnerRecorded(cfg: Config, ws: seq<World>, steps: seq<Step>, t: nat) returns (f: nat)
    requires Run(cfg, ws, steps) && t < |ws| && ws[t].cache.owner != Unknown
    ensures f < t && ws[f].cache.owner == Unknown && ws[f + 1].cache.owner == ws[t].cache.owner
  {
    f := LastUnknown(OwnersOf(ws), t);
    OwnerIsFinal(cfg, ws, steps, f + 1, t);
  }

  /** When the agents are recorded as owners nothing has been extracted yet, and the step itself serves nothing. */
  lemma RecordingServesNothing(cfg: Config, w: World, step: Step)
    requires Inv(cfg, w) && Enabled(cfg, w, step)
    requires w.cache.owner == Unknown && Apply(cfg, w, step).cache.owner == Agent
    ensures step.OperatorStep? && !AgentSucceeded(Apply(cfg, w, step).c)
    ensures ServingExists(w.c) <==> ServingExists(Apply(cfg, w, step).c)
  {
    var x := OperatorFacts.PassEffect(cfg, w, step.uid, step.writeOk);
    OperatorReports(cfg, w, step.uid, step.writeOk);
    OperatorServes(cfg, w, step.uid, step.writeOk);
  }

  /**
   * Serving is safe from the moment the agents are recorded as owners if and only if no volume of the operator was there
   * when they were: whatever is edited, lost or torn down before or after makes no difference.
   */
  lemma ServingSafeExactlyWhen(cfg: Config, ws: seq<World>, steps: seq<Step>, t: nat) returns (f: nat)
    requires Run(cfg, ws, steps) && t < |ws| && ws[t].cache.owner == Agent
    ensures f < t && ws[f].cache.owner == Unknown && ws[f + 1].cache.owner == Agent
    ensures (forall u :: f < u <= t ==> Earned(ws[u])) <==> !ServingExists(ws[f].c)
  {
    f := OwnerRecorded(cfg, ws, steps, t);
    RunInv(cfg, ws, steps, f);
    RecordingServesNothing(cfg, ws[f], steps[f]);
    if Earned(ws[f + 1]) {
      forall u | f < u <= t ensures Earned(ws[u]) {
        EarnedStays(cfg, ws, steps, f + 1, u);
      }
    }
  }

  // ---------- Deletion handshake ----------

  lemma {:induction false} NoNodeCounted(nodes: seq<Option<CacheNode>>, count: nat, i: nat)
    requires i < count <= |nodes| && OperatorSpec.Lists(nodes[i])
    ensures nodes[i].value.counts.nodeCnt <= OperatorSpec.SumCounts(nodes, count).nodeCnt
  {
    if i < count - 1 {
      NoNodeCounted(nodes, count - 1, i);
    }
  }

  /**
   * Deletion handshake. When the operator lets a cache go, the cache was being deleted, and every node object that still
   * lists it has given up its own finalizer and holds nothing but entries in condition Deleting.
   */
  lemma DeletionHandshake(cfg: Config, ws: seq<World>, steps: seq<Step>, t: nat, i: nat)
    requires Run(cfg, ws, steps) && t < |steps| && steps[t].OperatorStep?
    requires !ws[t].cache.gone && ws[t + 1].cache.gone
    requires i < |ws[t].nodes| && OperatorSpec.Lists(ws[t].nodes[i])
    ensures ws[t].cache.deleting && ws[t].cache.finalizer && !ws[t + 1].cache.finalizer
    ensures !ws[t].nodes[i].value.finalizer
    ensures forall ns :: HasEntry(ws[t], i, ns) ==> Entry(ws[t], i, ns).cond == Deleting
  {
    var w := ws[t];
    RunInv(cfg, ws, steps, t);
    var x := OperatorFacts.PassEffect(cfg, w, steps[t].uid, steps[t].writeOk);
    NoNodeCounted(w.nodes, |w.nodes|, i);
    assert NodeShape(cfg, w.cache, cfg.nodeNames[i], w.nodes[i].value);
    forall ns | HasEntry(w, i, ns) ensures Entry(w, i, ns).cond == Deleting {
      assert EntryShape(cfg, w.cache, w.nodes[i].value, ns, Entry(w, i, ns));
    }
  }
}
