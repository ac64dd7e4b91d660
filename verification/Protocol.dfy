/** Runs of the protocol: controller passes interleaved with everything the cluster may do on its own. */
module Protocol {
  import opened ApiTypes
  import opened Kube
  import opened Fleet
  import opened AgentSpec
  import OperatorSpec

  datatype Step =
    | AgentStep(node: nat, uid: string, writeOk: bool)
    | OperatorStep(uid: string, writeOk: bool)
    | DriftStep(next: Cluster)
    | DeleteStep
    | EditModes(modes: seq<AccessMode>)

  /** Initially nothing exists but a cache object nobody has looked at. */
  ghost predicate Init(cfg: Config, w: World) {
    && ValidConfig(cfg)
    && w.c.pvs == map[] && w.c.pvcs == map[] && w.c.jobs == map[]
    && w.c.log == Log({}, {}, map[], w.c.log.clock, false)
    && w.cache == CacheObj(false, false, false, w.cache.modes, Unknown, ZERO_COUNTS, None, map[])
    && |w.nodes| == |cfg.nodeNames|
    && forall i :: 0 <= i < |w.nodes| ==> w.nodes[i] == None
  }

  /**
   * The cluster moves on its own: objects start terminating or vanish, Jobs progress in any way, pods and namespaces
   * come and go. It never creates objects with this cache's labels, and a success is reported by a Job that shows it.
   */
  ghost predicate Drift(c: Cluster, d: Cluster) {
    && (forall n :: n in d.pvs ==>
          n in c.pvs && d.pvs[n].labels == c.pvs[n].labels && (c.pvs[n].terminating ==> d.pvs[n].terminating))
    && (forall k :: k in d.pvcs ==>
          k in c.pvcs && d.pvcs[k].labels == c.pvcs[k].labels && (c.pvcs[k].terminating ==> d.pvcs[k].terminating))
    && (forall k :: k in d.jobs ==>
          && k in c.jobs && d.jobs[k].node == c.jobs[k].node && d.jobs[k].pvc == c.jobs[k].pvc
          && d.jobs[k].created == c.jobs[k].created && (c.jobs[k].terminating ==> d.jobs[k].terminating)
          && (d.jobs[k].succeeded > 0 ==> Labels(k.ns, d.jobs[k].node) in d.log.succeeded))
    && d.log == c.log.(succeeded := d.log.succeeded)
    && c.log.succeeded <= d.log.succeeded
    && (forall l :: l in d.log.succeeded && l !in c.log.succeeded ==>
          exists k :: k in d.jobs && k.ns == l.ns && d.jobs[k].node == l.node && d.jobs[k].succeeded > 0)
  }

  ghost predicate Enabled(cfg: Config, w: World, step: Step) {
    match step
    case AgentStep(i, uid, _) => i < |cfg.nodeNames| && i < |w.nodes| && FreshUid(w.c.log, uid)
    case OperatorStep(uid, _) => FreshUid(w.c.log, uid)
    case DriftStep(next) => Drift(w.c, next)
    case DeleteStep => !w.cache.gone
    case EditModes(_) => !w.cache.gone
  }

  ghost function Apply(cfg: Config, w: World, step: Step): World
    requires Enabled(cfg, w, step)
  {
    match step
    case AgentStep(i, uid, writeOk) => AgentPass(cfg, w, i, uid, writeOk)
    case OperatorStep(uid, writeOk) => OperatorSpec.OperatorPass(cfg, w, uid, writeOk)
    case DriftStep(next) => w.(c := next)
    case DeleteStep =>
      w.(cache := if w.cache.finalizer then w.cache.(deleting := true) else w.cache.(gone := true))
    case EditModes(modes) =>
      var edits := w.cache.owner == Unknown && DetermineOwner(modes) != DetermineOwner(w.cache.modes);
      w.(cache := w.cache.(modes := modes), c := w.c.(log := w.c.log.(edited := w.c.log.edited || edits)))
  }

  /** A run: a start state and the steps taken from it. */
  ghost predicate Run(cfg: Config, ws: seq<World>, steps: seq<Step>) {
    && |ws| == |steps| + 1
    && Init(cfg, ws[0])
    && forall t :: 0 <= t < |steps| ==> Enabled(cfg, ws[t], steps[t]) && ws[t + 1] == Apply(cfg, ws[t], steps[t])
  }

  /** A run goes on with any enabled step. */
  lemma RunGoesOn(cfg: Config, ws: seq<World>, steps: seq<Step>, step: Step, w: World)
    requires Run(cfg, ws, steps) && Enabled(cfg, ws[|steps|], step) && w == Apply(cfg, ws[|steps|], step)
    ensures Run(cfg, ws + [w], steps + [step])
  {
    var longer, all := ws + [w], steps + [step];
    forall t | 0 <= t < |all| ensures Enabled(cfg, longer[t], all[t]) && longer[t + 1] == Apply(cfg, longer[t], all[t]) {
      assert t < |steps| ==> longer[t] == ws[t] && longer[t + 1] == ws[t + 1] && all[t] == steps[t];
    }
  }

  /** The last state of some run. */
  ghost predicate Reachable(cfg: Config, w: World) {
    exists ws, steps :: Run(cfg, ws, steps) && ws[|steps|] == w
  }

  lemma Reaches(cfg: Config, w: World, step: Step)
    requires Reachable(cfg, w) && Enabled(cfg, w, step)
    ensures Reachable(cfg, Apply(cfg, w, step))
  {
    var ws, steps :| Run(cfg, ws, steps) && ws[|steps|] == w;
    RunGoesOn(cfg, ws, steps, step, Apply(cfg, w, step));
  }
}
