/** The invariants hold in every state of every run. */
module RunProofs {
  import opened ApiTypes
  import opened Kube
  import opened Fleet
  import AgentSpec
  import OperatorSpec
  import opened Protocol
  import opened Invariants
  import opened ObjectProofs
  import AgentProofs
  import OperatorProofs

  lemma DriftShrinks(c: Cluster, d: Cluster)
    requires Drift(c, d)
    ensures Shrinks(c, d)
  {
  }

  lemma DriftOwners(w: World, d: Cluster)
    requires Drift(w.c, d) && Owners(w)
    ensures Owners(w.(c := d))
  {
    forall l | l in d.log.succeeded && l !in w.c.log.succeeded
      ensures (if l.node == "" then Operator else Agent) in w.c.log.launchers
    {
      var k :| k in w.c.jobs && k.ns == l.ns && w.c.jobs[k].node == l.node;
    }
  }

  lemma DriftNodes(cfg: Config, w: World, d: Cluster)
    requires Drift(w.c, d) && Inv(cfg, w)
    ensures Success(cfg, w.(c := d))
  {
    var w' := w.(c := d);
    forall j | 0 <= j < |w.nodes| && w.nodes[j].Some? ensures NodeBacked(w', cfg.nodeNames[j], w.nodes[j].value) {
      assert NodeBacked(w, cfg.nodeNames[j], w.nodes[j].value);
    }
  }

  lemma DriftKeeps(cfg: Config, w: World, d: Cluster)
    requires Drift(w.c, d) && Inv(cfg, w)
    ensures Inv(cfg, w.(c := d))
  {
    var w' := w.(c := d);
    DriftShrinks(w.c, d);
    ShrinkKeeps(cfg, w.c, d);
    DriftOwners(w, d);
    DriftNodes(cfg, w, d);
    forall k | k in d.jobs ensures JobBacked(cfg, w', k.ns, d.jobs[k]) {
      assert JobBacked(cfg, w, k.ns, w.c.jobs[k]);
      SameNodesBacked(cfg, w, w', k.ns, w.c.jobs[k]);
    }
  }

  lemma EditKeeps(cfg: Config, w: World, modes: seq<AccessMode>)
    requires Inv(cfg, w) && !w.cache.gone
    ensures Inv(cfg, Apply(cfg, w, EditModes(modes)))
  {
    var w' := Apply(cfg, w, EditModes(modes));
    forall j | 0 <= j < |w.nodes| && w.nodes[j].Some?
      ensures NodeShape(cfg, w'.cache, cfg.nodeNames[j], w.nodes[j].value)
      ensures NodeBacked(w', cfg.nodeNames[j], w.nodes[j].value)
    {
      assert NodeShape(cfg, w.cache, cfg.nodeNames[j], w.nodes[j].value);
      assert NodeBacked(w, cfg.nodeNames[j], w.nodes[j].value);
    }
    forall k | k in w.c.jobs ensures JobBacked(cfg, w', k.ns, w.c.jobs[k]) {
      SameNodesBacked(cfg, w, w', k.ns, w.c.jobs[k]);
    }
  }

  lemma StepKeeps(cfg: Config, w: World, step: Step)
    requires Inv(cfg, w) && Enabled(cfg, w, step)
    ensures Inv(cfg, Apply(cfg, w, step))
  {
    match step
    case AgentStep(i, uid, writeOk) => AgentProofs.AgentKeeps(cfg, w, i, uid, writeOk);
    case OperatorStep(uid, writeOk) => OperatorProofs.OperatorKeeps(cfg, w, uid, writeOk);
    case DriftStep(d) => DriftKeeps(cfg, w, d);
    case DeleteStep => OperatorProofs.FlagsKeep(cfg, w, Apply(cfg, w, step));
    case EditModes(modes) => EditKeeps(cfg, w, modes);
  }

  lemma {:induction false} RunInv(cfg: Config, ws: seq<World>, steps: seq<Step>, t: nat)
    requires Run(cfg, ws, steps) && t < |ws|
    ensures Inv(cfg, ws[t])
  {
    if t == 0 {
      InitInv(cfg, ws[0]);
    } else {
      RunInv(cfg, ws, steps, t - 1);
      StepKeeps(cfg, ws[t - 1], steps[t - 1]);
    }
  }
}
