/** A concrete run that shows where the hypothesis of serving safety is needed. */
module Counterexamples {
  import opened ApiTypes
  import opened Kube
  import opened Fleet
  import OperatorSpec
  import opened Protocol
  import opened Invariants
  import opened Theorems

  const ONE_SPACE := Config("m", ["n"], false, [])

  /** A fresh cluster with one workload namespace and a cache with the given modes. */
  function Fresh(modes: seq<AccessMode>): World {
    var cluster := Cluster(map[], map[], map[], [], map["n" := false], Log({}, {}, map[], 0, false));
    World(cluster, CacheObj(false, false, false, modes, Unknown, ZERO_COUNTS, None, map[]), [])
  }

  /** The first working pass creates the serving claim when the operator owns the cache; here its status write is lost. */
  lemma LostFirstPass(w: World) returns (w': World)
    requires w == Fresh([ReadOnlyMany]).(cache := Fresh([ReadOnlyMany]).cache.(finalizer := true))
    ensures Enabled(ONE_SPACE, w, OperatorStep("u", false)) && w' == Apply(ONE_SPACE, w, OperatorStep("u", false))
    ensures w' == w.(c := AddPvc(w.c, "m", Labels("n", "")))
  {
    w' := Apply(ONE_SPACE, w, OperatorStep("u", false));
    var v := OperatorSpec.PassView(ONE_SPACE, w, OperatorSpec.StartStatus(w), "u");
    var e := NewEntry(Operator);
    assert PvcMatches(w.c, Labels("n", "")) == {};
    assert OperatorSpec.Modify(w.c, v, "n", e) == Changed(AddPvc(w.c, "m", Labels("n", "")), e.(pvcName := "m"));
    assert w'.c == AddPvc(w.c, "m", Labels("n", ""));
  }

  lemma FinalizerPass(w: World, w': World)
    requires w == Fresh([ReadOnlyMany]) && w' == w.(cache := w.cache.(finalizer := true))
    ensures Enabled(ONE_SPACE, w, OperatorStep("u", true)) && w' == Apply(ONE_SPACE, w, OperatorStep("u", true))
  {
  }

  /** After the edit the operator records the agents as owners; it holds off, but the claim is there already. */
  lemma HeldOffPass(w: World) returns (w': World)
    requires w.cache == Fresh([ReadWriteOnce]).cache.(finalizer := true) && w.nodes == []
    requires w.c.spaces == map["n" := false] && FreshUid(w.c.log, "v")
    ensures Enabled(ONE_SPACE, w, OperatorStep("v", true)) && w' == Apply(ONE_SPACE, w, OperatorStep("v", true))
    ensures w'.c == w.c && w'.cache.owner == Agent
  {
    w' := Apply(ONE_SPACE, w, OperatorStep("v", true));
    var v := OperatorSpec.PassView(ONE_SPACE, w, OperatorSpec.StartStatus(w), "v");
    assert OperatorSpec.Modify(w.c, v, "n", NewEntry(Operator)) == Managed(w.c, NewEntry(Operator), false, true, false);
  }

  lemma LostClaim() returns (ws: seq<World>, steps: seq<Step>)
    ensures Run(ONE_SPACE, ws, steps) && |ws| == 3
    ensures var w := Fresh([ReadOnlyMany]).(cache := Fresh([ReadOnlyMany]).cache.(finalizer := true));
            ws[2] == w.(c := AddPvc(w.c, "m", Labels("n", "")))
  {
    var w0 := Fresh([ReadOnlyMany]);
    var w1 := w0.(cache := w0.cache.(finalizer := true));
    FinalizerPass(w0, w1);
    var w2 := LostFirstPass(w1);
    ws, steps := [w0], [];
    ws, steps := Grown(ws, steps, OperatorStep("u", true), w1);
    ws, steps := Grown(ws, steps, OperatorStep("u", false), w2);
  }

  /**
   * Serving safety needs its hypothesis: the operator creates the volume for a cache it takes to be its own, loses the
   * write, the modes are edited, and the next pass records the agents as owners. Nothing was ever extracted.
   */
  lemma ServingAfterEdit() returns (ws: seq<World>, steps: seq<Step>)
    ensures Run(ONE_SPACE, ws, steps) && |ws| == 5
    ensures ws[4].cache.owner == Agent && ServingExists(ws[4].c) && ws[4].c.log.succeeded == {} && !Unedited(ws, steps, 4)
  {
    ws, steps := LostClaim();
    var w2 := ws[2];
    var w3 := w2.(cache := w2.cache.(modes := [ReadWriteOnce]), c := w2.c.(log := w2.c.log.(edited := true)));
    ws, steps := Grown(ws, steps, EditModes([ReadWriteOnce]), w3);
    var w4 := HeldOffPass(w3);
    ws, steps := Grown(ws, steps, OperatorStep("v", true), w4);
    assert w4.c.pvcs[ObjKey("n", "m")].labels.node == "";
    assert steps[2].EditModes? && ws[2].cache.owner == Unknown;
  }

  lemma Grown(ws: seq<World>, steps: seq<Step>, step: Step, w: World) returns (ws': seq<World>, steps': seq<Step>)
    requires Run(ONE_SPACE, ws, steps) && Enabled(ONE_SPACE, ws[|steps|], step) && w == Apply(ONE_SPACE, ws[|steps|], step)
    ensures ws' == ws + [w] && steps' == steps + [step] && Run(ONE_SPACE, ws', steps')
  {
    RunGoesOn(ONE_SPACE, ws, steps, step, w);
    ws', steps' := ws + [w], steps + [step];
  }
}
