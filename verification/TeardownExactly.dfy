/** For which configurations teardown is right: exactly those without nodes or without two different namespaces. */
module TeardownExactly {
  import opened ApiTypes
  import opened Kube
  import opened Fleet
  import opened AgentSpec
  import OperatorSpec
  import opened Protocol
  import opened Invariants
  import opened Linkage
  import opened LinkProofs
  import opened Teardown
  import opened TwoNamespaces
  import A = AgentFacts
  import AgentMoves
  import AgentProofs
  import ObjectProofs
  import OperatorFacts
  import OperatorProofs

  // ---------- Steps of runs ----------

  /** A step of a controller in some run. */
  ghost predicate Taken(cfg: Config, w: World, step: Step) {
    Reachable(cfg, w) && Controls(step) && Enabled(cfg, w, step)
  }

  lemma TakenInRun(cfg: Config, w: World, step: Step) returns (ws: seq<World>, steps: seq<Step>)
    requires Taken(cfg, w, step)
    ensures Run(cfg, ws, steps) && steps != [] && steps[|steps| - 1] == step
    ensures ws[|steps| - 1] == w && ws[|steps|] == Apply(cfg, w, step)
  {
    ws, steps :| Run(cfg, ws, steps) && ws[|steps|] == w;
    RunGoesOn(cfg, ws, steps, step, Apply(cfg, w, step));
    ws, steps := ws + [Apply(cfg, w, step)], steps + [step];
  }

  ghost predicate OwnClaim(cfg: Config, w: World, step: Step, k: ObjKey) {
    Taken(cfg, w, step) && PvcMarked(w.c, Apply(cfg, w, step).c, k) ==> Acts(cfg, w, step, w.c.pvcs[k].labels)
  }

  ghost predicate ClaimAfterJob(cfg: Config, w: World, step: Step, k: ObjKey) {
    Taken(cfg, w, step) && PvcMarked(w.c, Apply(cfg, w, step).c, k) ==> JobGone(w.c, w.c.pvcs[k].labels)
  }

  ghost predicate PvLast(cfg: Config, w: World, step: Step, n: string) {
    Taken(cfg, w, step) && PvMarked(w.c, Apply(cfg, w, step).c, n) ==>
      JobGone(w.c, w.c.pvs[n].labels) && PvcMatches(w.c, w.c.pvs[n].labels) == {}
  }

  /** The entry of an Agent-owned cache is dropped only when nothing is left that is labelled for it. */
  ghost predicate DropsClean(cfg: Config, w: World, step: Step, i: nat, ns: string) {
    Taken(cfg, w, step) && w.cache.owner == Agent && i < |cfg.nodeNames| && HasEntry(w, i, ns) && !HasEntry(Apply(cfg, w, step), i, ns)
    ==> Clean(w.c, Labels(ns, cfg.nodeNames[i]))
  }

  /** The configurations for which teardown is right. */
  ghost predicate Plain(cfg: Config) {
    cfg.nodeNames == [] || OneSpace(cfg)
  }

  lemma PlainSteps(cfg: Config, w: World, step: Step)
    requires Plain(cfg) && Taken(cfg, w, step)
    ensures OwnLabels(cfg, step)
  {
  }

  // ---------- PVs ----------

  lemma StepWithoutPvs(cfg: Config, w: World, step: Step)
    requires Enabled(cfg, w, step) && !cfg.kind && w.c.pvs == map[]
    ensures Apply(cfg, w, step).c.pvs == map[]
  {
    match step
    case AgentStep(i, uid, writeOk) => AgentWithoutPvs(cfg, w, i, uid, writeOk);
    case OperatorStep(uid, writeOk) => OperatorWithoutPvs(cfg, w, uid, writeOk);
    case _ =>
  }

  lemma ModifyWithoutPvs(c: Cluster, v: View, ns: string, e: PvcStatus)
    requires !v.cfg.kind && c.pvs == map[] && !Modify(c, v, ns, e).err
    ensures Modify(c, v, ns, e).c.pvs == map[]
  {
    var move := AgentMoves.ModifyMove(c, v, ns, e);
  }

  lemma BodyWithoutPvs(v: View, c: Cluster, nd: CacheNode, writeOk: bool)
    requires !v.cfg.kind && c.pvs == map[]
    ensures PassBody(v, c, nd, writeOk).c.pvs == map[]
  {
    var x := A.BodyEffect(v, c, nd, writeOk);
    if x.Modified? {
      ModifyWithoutPvs(c, v, x.ns, A.EntryOr(v, A.Held(nd), x.ns));
    } else if x.Released? {
      AgentProofs.ReleaseEntry(c, v, nd.listed.value, x.ns);
    }
  }

  lemma AgentWithoutPvs(cfg: Config, w: World, i: nat, uid: string, writeOk: bool)
    requires i < |cfg.nodeNames| && i < |w.nodes| && !cfg.kind && w.c.pvs == map[]
    ensures AgentPass(cfg, w, i, uid, writeOk).c.pvs == map[]
  {
    if !w.cache.gone && w.nodes[i].Some? && w.nodes[i].value.nodeName == cfg.nodeNames[i] {
      BodyWithoutPvs(NodeView(cfg, w, i, uid), w.c, w.nodes[i].value, writeOk);
    }
  }

  lemma OperatorWithoutPvs(cfg: Config, w: World, uid: string, writeOk: bool)
    requires !cfg.kind && w.c.pvs == map[]
    ensures OperatorSpec.OperatorPass(cfg, w, uid, writeOk).c.pvs == map[]
  {
    var x := OperatorFacts.PassEffect(cfg, w, uid, writeOk);
    if x.Modified? {
      var v := OperatorSpec.PassView(cfg, w, OperatorSpec.StartStatus(w), uid);
      var move := OperatorProofs.ModifyMove(w.c, v, x.ns, OperatorFacts.EntryOr(w.cache.entries, x.ns));
    } else if x.Released? {
      ObjectProofs.DeleteMarks(w.c, w.cache.entries[x.ns], Operator, Labels(x.ns, ""));
    }
  }

  lemma {:induction false} RunWithoutPvs(cfg: Config, ws: seq<World>, steps: seq<Step>, t: nat)
    requires Run(cfg, ws, steps) && t < |ws| && !cfg.kind
    ensures ws[t].c.pvs == map[]
  {
    if t > 0 {
      RunWithoutPvs(cfg, ws, steps, t - 1);
      StepWithoutPvs(cfg, ws[t - 1], steps[t - 1]);
    }
  }

  // ---------- Exactly when ----------

  /** Controllers delete only claims labelled for themselves, in all runs, if and only if the configuration is plain. */
  lemma OwnClaimsExactlyWhen(cfg: Config)
    requires ValidConfig(cfg)
    ensures (forall w, step, k :: OwnClaim(cfg, w, step, k)) <==> Plain(cfg)
  {
    if Plain(cfg) {
      forall w, step, k ensures OwnClaim(cfg, w, step, k) {
        if Taken(cfg, w, step) && PvcMarked(w.c, Apply(cfg, w, step).c, k) {
          PlainSteps(cfg, w, step);
          var ws, steps := TakenInRun(cfg, w, step);
          PvcTeardown(cfg, ws, steps, |steps| - 1, k);
        }
      }
    } else {
      var j := Mixes(cfg);
      var w, uid, k := ServingClaimDeleted(cfg, j);
      assert !OwnClaim(cfg, w, AgentStep(0, uid, true), k);
    }
  }

  /** A claim is deleted only after the Job that extracts into it, in all runs, if and only if the configuration is plain. */
  lemma ClaimOrderExactlyWhen(cfg: Config)
    requires ValidConfig(cfg)
    ensures (forall w, step, k :: ClaimAfterJob(cfg, w, step, k)) <==> Plain(cfg)
  {
    if Plain(cfg) {
      forall w, step, k ensures ClaimAfterJob(cfg, w, step, k) {
        if Taken(cfg, w, step) && PvcMarked(w.c, Apply(cfg, w, step).c, k) {
          PlainSteps(cfg, w, step);
          var ws, steps := TakenInRun(cfg, w, step);
          PvcTeardown(cfg, ws, steps, |steps| - 1, k);
        }
      }
    } else {
      var j := Mixes(cfg);
      var w, uid, k := ClaimTooEarly(cfg, j);
      assert !ClaimAfterJob(cfg, w, AgentStep(0, uid, true), k);
    }
  }

  /** Entries of an Agent-owned cache are dropped clean, in all runs, if and only if the configuration is plain. */
  lemma CleanDropsExactlyWhen(cfg: Config)
    requires ValidConfig(cfg)
    ensures (forall w, step, i, ns :: DropsClean(cfg, w, step, i, ns)) <==> Plain(cfg)
  {
    if Plain(cfg) {
      forall w, step, i: nat, ns ensures DropsClean(cfg, w, step, i, ns) {
        if Taken(cfg, w, step) && i < |cfg.nodeNames| && HasEntry(w, i, ns) && !HasEntry(Apply(cfg, w, step), i, ns) {
          var ws, steps := TakenInRun(cfg, w, step);
          NodeEntryDropped(cfg, ws, steps, |steps| - 1, i, ns);
        }
      }
    } else {
      var j := Mixes(cfg);
      var w, uid := DroppedTooEarly(cfg, j);
      assert !DropsClean(cfg, w, AgentStep(0, uid, true), 0, cfg.namespaces[0]);
    }
  }

  lemma ReachableWithoutPvs(cfg: Config, w: World)
    requires Reachable(cfg, w) && !cfg.kind
    ensures w.c.pvs == map[]
  {
    var ws, steps :| Run(cfg, ws, steps) && ws[|steps|] == w;
    RunWithoutPvs(cfg, ws, steps, |steps|);
  }

  lemma PlainPvLast(cfg: Config, w: World, step: Step, n: string)
    requires Plain(cfg) && Taken(cfg, w, step) && PvMarked(w.c, Apply(cfg, w, step).c, n)
    ensures PvLast(cfg, w, step, n)
  {
    var ws, steps := TakenInRun(cfg, w, step);
    PlainSteps(cfg, w, step);
    PvTeardown(cfg, ws, steps, |steps| - 1, n);
  }

  lemma PvInOrder(cfg: Config, w: World, step: Step, n: string)
    requires Plain(cfg) || !cfg.kind
    ensures PvLast(cfg, w, step, n)
  {
    if Taken(cfg, w, step) && PvMarked(w.c, Apply(cfg, w, step).c, n) {
      if cfg.kind {
        PlainPvLast(cfg, w, step, n);
      } else {
        ReachableWithoutPvs(cfg, w);
      }
    }
  }

  /**
   * A PV is deleted only after the Job and the claims that carry its labels, in all runs, if and only if the configuration
   * is plain or PVs are provisioned automatically.
   */
  lemma PvOrderExactlyWhen(cfg: Config)
    requires ValidConfig(cfg)
    ensures (forall w, step, n :: PvLast(cfg, w, step, n)) <==> Plain(cfg) || !cfg.kind
  {
    if Plain(cfg) || !cfg.kind {
      forall w, step, n ensures PvLast(cfg, w, step, n) {
        PvInOrder(cfg, w, step, n);
      }
    } else {
      var j := Mixes(cfg);
      var w, uid, n := PvTooEarly(cfg, j);
      assert !PvLast(cfg, w, AgentStep(0, uid, true), n);
    }
  }
}
