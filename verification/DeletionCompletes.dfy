/**
 * The teardown of a whole cache gets done: with the cluster left alone and all writes arriving, the agents let go of it and
 * the operator removes it, unless the cluster still has to remove a claim.
 */
module DeletionCompletes {
  import opened ApiTypes
  import opened Kube
  import opened Fleet
  import AgentSpec
  import OperatorSpec
  import opened Protocol
  import opened Invariants
  import opened LinkProofs
  import E = DeletionEnds
  import opened DeletionRest
  import Sums
  import T = Teardown
  import A = AgentFacts
  import opened Settling
  import R = OperatorRest

  // ---------- The random suffix plays no part in a deletion ----------

  lemma {:induction false} ReleaseUid(v: AgentSpec.View, u: AgentSpec.View, s: AgentSpec.Loop, k: nat)
    requires u == v.(uid := u.uid) && k <= |v.cfg.namespaces|
    ensures AgentSpec.ReleaseFrom(u, s, k) == AgentSpec.ReleaseFrom(v, s, k)
    decreases |v.cfg.namespaces| - k
  {
    if k < |v.cfg.namespaces| {
      var ns := v.cfg.namespaces[k];
      if ns !in s.entries {
        ReleaseUid(v, u, s, k + 1);
      } else {
        var d := AgentSpec.Release(s.c, v, s.entries, ns);
        assert AgentSpec.Release(s.c, u, s.entries, ns) == d;
        var s' := s.(c := d.c, updated := d.updated, inUse := s.inUse || d.held);
        var a := AgentSpec.AddCounts(d.c, v, ns, d.e, s.cnts);
        assert AgentSpec.AddCounts(d.c, u, ns, d.e, s.cnts) == a;
        ReleaseUid(v, u, if d.err then s' else s'.(cnts := a.cnts), k + 1);
      }
    }
  }

  lemma AgentUid(cfg: Config, w: World, i: nat, uid: string, uid': string)
    requires i < |cfg.nodeNames| && i < |w.nodes| && E.Ending(w)
    ensures AgentSpec.AgentPass(cfg, w, i, uid, true) == AgentSpec.AgentPass(cfg, w, i, uid', true)
  {
    if w.nodes[i].Some? {
      var v, u := AgentSpec.NodeView(cfg, w, i, uid), AgentSpec.NodeView(cfg, w, i, uid');
      ReleaseUid(v, u, AgentSpec.StartLoop(w.c, w.nodes[i].value.listed), 0);
    }
  }

  lemma {:induction false} TearUid(v: OperatorSpec.View, u: OperatorSpec.View, s: OperatorSpec.Loop, k: nat)
    requires u == v.(uid := u.uid) && v.deleting && k <= |v.cfg.namespaces|
    ensures OperatorSpec.LoopFrom(u, s, k) == OperatorSpec.LoopFrom(v, s, k)
    decreases |v.cfg.namespaces| - k
  {
    if k < |v.cfg.namespaces| {
      var ns := v.cfg.namespaces[k];
      if ns !in s.entries {
        TearUid(v, u, s, k + 1);
      } else {
        var r := ManageDelete(s.c, s.entries[ns], Operator, Labels(ns, ""));
        var s' := s.(c := r.c, pvcDeleting := r.deleting);
        TearUid(v, u, s'.(updated := if r.err then r.updated else false), k + 1);
      }
    }
  }

  lemma OperatorUid(cfg: Config, w: World, uid: string, uid': string)
    requires E.Ending(w)
    ensures OperatorSpec.OperatorPass(cfg, w, uid, true) == OperatorSpec.OperatorPass(cfg, w, uid', true)
  {
    var st := OperatorSpec.StartStatus(w);
    if w.cache.deleting {
      TearUid(OperatorSpec.PassView(cfg, w, st, uid), OperatorSpec.PassView(cfg, w, st, uid'), OperatorSpec.Loop(w.c, st.entries, false, false), 0);
    }
  }

  // ---------- Counts that are out of date ----------

  ghost function ReleaseOf(cfg: Config, w: World, i: nat): AgentSpec.Loop
    requires SetUp(cfg, w, i)
  {
    AgentSpec.RunLoop(AgentSpec.NodeView(cfg, w, i, ""), AgentSpec.StartLoop(w.c, w.nodes[i].value.listed))
  }

  /** The agent has only its counts to correct. */
  ghost predicate Stale(cfg: Config, w: World, i: nat) {
    && SetUp(cfg, w, i) && w.cache.owner != Unknown && w.nodes[i].value.listed.Some?
    && !ReleaseOf(cfg, w, i).updated && ReleaseOf(cfg, w, i).cnts != w.nodes[i].value.counts
  }

  /** The operator has only counts and condition to correct. */
  ghost predicate StatusStale(cfg: Config, w: World) {
    !TearOf(cfg, w, "").updated && OperatorSpec.Finished(w, OperatorSpec.StartStatus(w)) != w.cache
  }

  ghost predicate Corrected(cfg: Config, w: World, w': World, i: nat) {
    && i < |w.nodes| == |w'.nodes| && w' == w.(nodes := w.nodes[i := w'.nodes[i]])
    && Stale(cfg, w, i) && !Stale(cfg, w', i)
  }

  lemma CountsBody(cfg: Config, v: AgentSpec.View, c: Cluster, nd: CacheNode)
    requires v.deleting && Unique(c)
    requires var p := AgentSpec.PassBody(v, c, nd, true); p.c == c && p.nd == nd.(counts := p.nd.counts) && p.nd != nd
    ensures v.owner != Unknown && nd.listed.Some?
    ensures var p := AgentSpec.PassBody(v, c, nd, true);
            var s := AgentSpec.RunLoop(v, AgentSpec.StartLoop(c, nd.listed));
            !s.updated && s.cnts != nd.counts && p.nd.counts == s.cnts
  {
    if v.owner != Unknown && nd.listed.Some? {
      var ns := A.ReleaseLoop(v, AgentSpec.StartLoop(c, nd.listed), 0);
    }
  }

  /** A pass of an agent leaves less to do, or it corrects counts, or it changes nothing. */
  lemma AgentMove(cfg: Config, w: World, i: nat)
    requires Ending(cfg, w) && i < |cfg.nodeNames|
    ensures var w' := AgentSpec.AgentPass(cfg, w, i, "", true);
            && E.Left(cfg, w') <= E.Left(cfg, w)
            && (w' == w || E.Left(cfg, w') < E.Left(cfg, w) || Corrected(cfg, w, w', i))
  {
    E.AgentStepSpends(cfg, w, i, "", true);
    var w' := AgentSpec.AgentPass(cfg, w, i, "", true);
    var (c, nd') := AgentSpec.NodePass(cfg, w, i, "", true);
    assert w'.nodes == w.nodes[i := nd'] && w'.nodes[i] == nd';
    if E.SameButCounts(w, w') && w' != w {
      assert E.SameNode(w.nodes[i], nd') && nd' != w.nodes[i] && SetUp(cfg, w, i);
      CountsBody(cfg, AgentSpec.NodeView(cfg, w, i, ""), w.c, w.nodes[i].value);
    }
  }

  lemma OperatorMove(cfg: Config, w: World)
    requires Ending(cfg, w)
    ensures var w' := OperatorSpec.OperatorPass(cfg, w, "", true);
            && E.Left(cfg, w') <= E.Left(cfg, w)
            && (w' == w || E.Left(cfg, w') < E.Left(cfg, w)
                || (w' == w.(cache := w'.cache) && E.SameCache(w.cache, w'.cache) && StatusStale(cfg, w) && !StatusStale(cfg, w')))
  {
    E.OperatorStepSpends(cfg, w, "", true);
    var w' := OperatorSpec.OperatorPass(cfg, w, "", true);
    if E.SameButCounts(w, w') && w' != w {
      var st := OperatorSpec.StartStatus(w);
      var ns := TearLoop(OperatorSpec.PassView(cfg, w, st, ""), OperatorSpec.Loop(w.c, w.cache.entries, false, false), 0);
      R.FinishedStays(w, OperatorSpec.Finished(w, st));
    }
  }

  // ---------- The effort that is left ----------

  ghost function StaleCount(cfg: Config, w: World, count: nat): (r: nat)
    ensures r <= count
  {
    if count == 0 then 0 else StaleCount(cfg, w, count - 1) + (if Stale(cfg, w, count - 1) then 1 else 0)
  }

  lemma {:induction false} SameStale(cfg: Config, w: World, w': World, count: nat)
    requires forall j: nat :: j < count ==> (Stale(cfg, w', j) <==> Stale(cfg, w, j))
    ensures StaleCount(cfg, w', count) == StaleCount(cfg, w, count)
  {
    if count > 0 {
      SameStale(cfg, w, w', count - 1);
    }
  }

  lemma {:induction false} OneLessStale(cfg: Config, w: World, w': World, i: nat, count: nat)
    requires i < count && Stale(cfg, w, i) && !Stale(cfg, w', i)
    requires forall j: nat :: j < count && j != i ==> (Stale(cfg, w', j) <==> Stale(cfg, w, j))
    ensures StaleCount(cfg, w', count) < StaleCount(cfg, w, count)
  {
    if i == count - 1 {
      SameStale(cfg, w, w', count - 1);
    } else {
      OneLessStale(cfg, w, w', i, count - 1);
    }
  }

  function Times(n: nat, k: nat): nat {
    if k == 0 then 0 else Times(n, k - 1) + n
  }

  lemma {:induction false} TimesIsProduct(n: nat, k: nat)
    ensures Times(n, k) == n * k
  {
    if k > 0 {
      TimesIsProduct(n, k - 1);
      assert n * k == n * (k - 1) + n;
    }
  }

  lemma {:induction false} TimesGrows(n: nat, j: nat, k: nat)
    requires j <= k
    ensures Times(n, j) <= Times(n, k) && (j < k ==> Times(n, j) + n <= Times(n, k))
    decreases k
  {
    if j < k {
      TimesGrows(n, j, k - 1);
    }
  }

  /** Every change that is more than a correction can be followed by corrections of all nodes and of the status. */
  ghost function Effort(cfg: Config, w: World): nat {
    Times(2 * |cfg.nodeNames| + 2, E.Left(cfg, w))
    + 2 * StaleCount(cfg, w, |cfg.nodeNames|) + (if StatusStale(cfg, w) then 1 else 0)
  }

  lemma LeftDecides(cfg: Config, w: World, w': World)
    requires E.Left(cfg, w') < E.Left(cfg, w)
    ensures Effort(cfg, w') < Effort(cfg, w)
  {
    TimesGrows(2 * |cfg.nodeNames| + 2, E.Left(cfg, w'), E.Left(cfg, w));
  }

  lemma CorrectionSpends(cfg: Config, w: World, w': World, i: nat)
    requires i < |cfg.nodeNames| && Corrected(cfg, w, w', i) && E.Left(cfg, w') <= E.Left(cfg, w)
    ensures Effort(cfg, w') < Effort(cfg, w)
  {
    forall j: nat | j < |cfg.nodeNames| && j != i ensures Stale(cfg, w', j) <==> Stale(cfg, w, j) {
      assert j < |w.nodes| ==> w'.nodes[j] == w.nodes[j];
    }
    OneLessStale(cfg, w, w', i, |cfg.nodeNames|);
    TimesGrows(2 * |cfg.nodeNames| + 2, E.Left(cfg, w'), E.Left(cfg, w));
  }

  lemma StatusSpends(cfg: Config, w: World, w': World)
    requires w' == w.(cache := w'.cache) && E.SameCache(w.cache, w'.cache) && StatusStale(cfg, w) && !StatusStale(cfg, w')
    requires E.Left(cfg, w') <= E.Left(cfg, w)
    ensures Effort(cfg, w') < Effort(cfg, w)
  {
    SameStale(cfg, w, w', |cfg.nodeNames|);
    TimesGrows(2 * |cfg.nodeNames| + 2, E.Left(cfg, w'), E.Left(cfg, w));
  }

  /** A controller takes a pass and its writes arrive. */
  predicate Arrives(step: Step) {
    (step.AgentStep? || step.OperatorStep?) && step.writeOk
  }

  /** Each pass changes nothing, or less effort is left. */
  lemma StepSpends(cfg: Config, w: World, step: Step)
    requires Good(cfg, w) && E.Ending(w) && Enabled(cfg, w, step) && Arrives(step)
    ensures Apply(cfg, w, step) == w || Effort(cfg, Apply(cfg, w, step)) < Effort(cfg, w)
  {
    var w' := Apply(cfg, w, step);
    if w.cache.gone {
      assert step.AgentStep? ==> w.nodes[step.node := w.nodes[step.node]] == w.nodes;
    } else if step.AgentStep? {
      AgentUid(cfg, w, step.node, step.uid, "");
      AgentMove(cfg, w, step.node);
      if E.Left(cfg, w') < E.Left(cfg, w) {
        LeftDecides(cfg, w, w');
      } else if w' != w {
        CorrectionSpends(cfg, w, w', step.node);
      }
    } else {
      OperatorUid(cfg, w, step.uid, "");
      OperatorMove(cfg, w);
      if E.Left(cfg, w') < E.Left(cfg, w) {
        LeftDecides(cfg, w, w');
      } else if w' != w {
        StatusSpends(cfg, w, w');
      }
    }
  }

  // ---------- Rounds ----------

  /** From step `s` to step `t` only controllers move, and all writes arrive. */
  ghost predicate Undisturbed(steps: seq<Step>, s: nat, t: nat) {
    s <= t <= |steps| && forall u :: s <= u < t ==> Arrives(steps[u])
  }

  ghost predicate TakesPass(steps: seq<Step>, s: nat, t: nat, i: nat) {
    exists u :: s <= u < t <= |steps| && steps[u].AgentStep? && steps[u].node == i
  }

  /** Each controller takes at least one pass, in any order. */
  ghost predicate Round(cfg: Config, steps: seq<Step>, s: nat, t: nat) {
    && Undisturbed(steps, s, t)
    && (forall i: nat :: i < |cfg.nodeNames| ==> TakesPass(steps, s, t, i))
    && exists u :: s <= u < t && steps[u].OperatorStep?
  }

  /** Rounds that follow each other, given by the steps at which they begin and end. */
  ghost predicate Rounds(cfg: Config, steps: seq<Step>, marks: seq<nat>) {
    |marks| > 0 && forall r: nat :: r + 1 < |marks| ==> Round(cfg, steps, marks[r], marks[r + 1])
  }

  ghost predicate EndingAt(cfg: Config, ws: seq<World>, t: nat) {
    t < |ws| && Good(cfg, ws[t]) && E.Ending(ws[t])
  }

  lemma StaysEnding(cfg: Config, ws: seq<World>, steps: seq<Step>, s: nat, t: nat)
    requires Run(cfg, ws, steps) && s <= t < |ws| && E.Ending(ws[s])
    ensures EndingAt(cfg, ws, t)
  {
    RunGood(cfg, ws, steps, t);
    E.DeletionEnds(cfg, ws, steps, s, t);
  }

  ghost function EffortOf(cfg: Config): World -> nat {
    w => Effort(cfg, w)
  }

  lemma RunSpends(cfg: Config, ws: seq<World>, steps: seq<Step>, t: nat)
    requires Run(cfg, ws, steps) && t < |steps| && EndingAt(cfg, ws, t) && Arrives(steps[t])
    ensures SpendsAt(EffortOf(cfg), ws, t)
  {
    StepSpends(cfg, ws[t], steps[t]);
  }

  lemma RoundSpends(cfg: Config, ws: seq<World>, steps: seq<Step>, s: nat, t: nat)
    requires Run(cfg, ws, steps) && Undisturbed(steps, s, t) && EndingAt(cfg, ws, s)
    ensures SpendsOver(EffortOf(cfg), ws, s, t)
  {
    forall u: nat | s <= u < t ensures SpendsAt(EffortOf(cfg), ws, u) {
      StaysEnding(cfg, ws, steps, s, u);
      RunSpends(cfg, ws, steps, u);
    }
    StepsSpend(EffortOf(cfg), ws, s, t);
  }

  /** Among more rounds than there is effort, one changes nothing. */
  lemma SomeRoundIsStill(cfg: Config, ws: seq<World>, steps: seq<Step>, marks: seq<nat>) returns (r: nat)
    requires Run(cfg, ws, steps) && Rounds(cfg, steps, marks) && EndingAt(cfg, ws, marks[0])
    requires |marks| - 1 > EffortOf(cfg)(ws[marks[0]])
    ensures r + 1 < |marks| && marks[0] <= marks[r] && Still(ws, marks[r], marks[r + 1])
  {
    forall q: nat | q + 1 < |marks| ensures SpendsOver(EffortOf(cfg), ws, marks[q], marks[q + 1]) {
      assert Round(cfg, steps, marks[q], marks[q + 1]);
      MarksRise(cfg, steps, marks, q);
      StaysEnding(cfg, ws, steps, marks[0], marks[q]);
      RoundSpends(cfg, ws, steps, marks[q], marks[q + 1]);
    }
    r := SomeStretchIsStill(EffortOf(cfg), ws, marks);
    MarksRise(cfg, steps, marks, r);
  }

  lemma {:induction false} MarksRise(cfg: Config, steps: seq<Step>, marks: seq<nat>, r: nat)
    requires Rounds(cfg, steps, marks) && r < |marks|
    ensures marks[0] <= marks[r]
  {
    if r > 0 {
      MarksRise(cfg, steps, marks, r - 1);
      assert Round(cfg, steps, marks[r - 1], marks[r - 1 + 1]);
    }
  }

  /** A round that changes nothing shows that all controllers rest. */
  lemma StillMeansRest(cfg: Config, ws: seq<World>, steps: seq<Step>, s: nat, t: nat)
    requires Run(cfg, ws, steps) && Round(cfg, steps, s, t) && EndingAt(cfg, ws, s) && Still(ws, s, t)
    ensures AllRest(cfg, ws[s])
  {
    var w := ws[s];
    forall i: nat | i < |w.nodes| ensures AgentSpec.AgentPass(cfg, w, i, "", true) == w {
      assert TakesPass(steps, s, t, i);
      var u :| s <= u < t && steps[u].AgentStep? && steps[u].node == i;
      assert ws[u + 1] == Apply(cfg, ws[u], steps[u]) && Arrives(steps[u]);
      AgentUid(cfg, w, i, steps[u].uid, "");
    }
    var u :| s <= u < t && steps[u].OperatorStep?;
    assert ws[u + 1] == Apply(cfg, ws[u], steps[u]) && Arrives(steps[u]);
    OperatorUid(cfg, w, steps[u].uid, "");
  }

  lemma RestStep(cfg: Config, w: World, step: Step)
    requires Good(cfg, w) && E.Ending(w) && AllRest(cfg, w) && Enabled(cfg, w, step) && Arrives(step)
    ensures Apply(cfg, w, step) == w
  {
    if step.AgentStep? {
      AgentUid(cfg, w, step.node, step.uid, "");
    } else {
      OperatorUid(cfg, w, step.uid, "");
    }
  }

  /** Rest lasts as long as the cluster is left alone. */
  lemma RestLasts(cfg: Config, ws: seq<World>, steps: seq<Step>, s: nat, t: nat)
    requires Run(cfg, ws, steps) && Undisturbed(steps, s, t) && EndingAt(cfg, ws, s) && AllRest(cfg, ws[s])
    ensures ws[t] == ws[s]
  {
    forall u: nat | s <= u < t && ws[u] == ws[s] ensures ws[u + 1] == ws[u] {
      RestStep(cfg, ws[u], steps[u]);
    }
    StandsStill(ws, s, t);
  }

  lemma {:induction false} RoundsJoin(cfg: Config, steps: seq<Step>, marks: seq<nat>, r: nat)
    requires Rounds(cfg, steps, marks) && r < |marks| && marks[r] <= |steps|
    ensures Undisturbed(steps, marks[r], marks[|marks| - 1])
    decreases |marks| - r
  {
    if r + 1 < |marks| {
      assert Round(cfg, steps, marks[r], marks[r + 1]);
      RoundsJoin(cfg, steps, marks, r + 1);
    }
  }

  /** Done: the cache is gone, or only the cluster has something left to do, and the agents have let go. */
  ghost predicate Done(cfg: Config, w: World) {
    w.cache.gone || (ClaimVanishing(cfg, w) && forall i: nat :: SetUp(cfg, w, i) ==> LetGo(w.c, w.cache.owner, w.nodes[i].value))
  }

  lemma EffortBounded(cfg: Config, w: World)
    ensures Effort(cfg, w) <= (2 * |cfg.nodeNames| + 2) * E.Left(cfg, w) + 2 * |cfg.nodeNames| + 1
  {
    TimesIsProduct(2 * |cfg.nodeNames| + 2, E.Left(cfg, w));
  }

  /**
   * Deletion completes. Once a cache is being deleted, take more rounds of passes, in which each controller gets its turn in
   * any order, than `(2 * nodes + 2) * Left + 2 * nodes + 1`. If the cluster is left alone meanwhile and the writes arrive,
   * the cache is gone at the end. Only a claim of the operator that the cluster has yet to remove can stand in the way.
   */
  lemma DeletionCompletes(cfg: Config, ws: seq<World>, steps: seq<Step>, marks: seq<nat>)
    requires Run(cfg, ws, steps) && Rounds(cfg, steps, marks) && marks[0] < |ws| && E.Ending(ws[marks[0]])
    requires |marks| - 1 > (2 * |cfg.nodeNames| + 2) * E.Left(cfg, ws[marks[0]]) + 2 * |cfg.nodeNames| + 1
    ensures marks[|marks| - 1] < |ws| && Done(cfg, ws[marks[|marks| - 1]])
  {
    StaysEnding(cfg, ws, steps, marks[0], marks[0]);
    EffortBounded(cfg, ws[marks[0]]);
    var r := SomeRoundIsStill(cfg, ws, steps, marks);
    StaysEnding(cfg, ws, steps, marks[0], marks[r]);
    assert Round(cfg, steps, marks[r], marks[r + 1]);
    StillMeansRest(cfg, ws, steps, marks[r], marks[r + 1]);
    RoundsJoin(cfg, steps, marks, r);
    RestLasts(cfg, ws, steps, marks[r], marks[|marks| - 1]);
    RestIsTheEnd(cfg, ws[marks[r]]);
  }

  // ---------- One agent by itself ----------

  /** Only the agent of node `i` takes passes on a cache that is being deleted. */
  ghost predicate Alone(cfg: Config, ws: seq<World>, i: nat, uids: seq<string>) {
    && |ws| == |uids| + 1 && Ending(cfg, ws[0]) && i < |cfg.nodeNames|
    && forall t :: 0 <= t < |uids| ==>
         i < |ws[t].nodes| && FreshUid(ws[t].c.log, uids[t]) && ws[t + 1] == AgentSpec.AgentPass(cfg, ws[t], i, uids[t], true)
  }

  ghost predicate SameCacheAt(cfg: Config, ws: seq<World>, i: nat, t: nat) {
    t < |ws| && Ending(cfg, ws[t]) && ws[t].cache == ws[0].cache && (SetUp(cfg, ws[t], i) <==> SetUp(cfg, ws[0], i))
  }

  lemma AloneStep(cfg: Config, w: World, i: nat, uid: string)
    requires Ending(cfg, w) && i < |cfg.nodeNames| && FreshUid(w.c.log, uid)
    ensures var w' := AgentSpec.AgentPass(cfg, w, i, uid, true);
            Ending(cfg, w') && w'.cache == w.cache && (SetUp(cfg, w', i) <==> SetUp(cfg, w, i))
    ensures !SetUp(cfg, w, i) ==> AgentSpec.AgentPass(cfg, w, i, uid, true) == w
  {
    AgentGood(cfg, w, i, uid, true);
    var (c, nd') := AgentSpec.NodePass(cfg, w, i, uid, true);
    assert w.nodes[i := nd'][i] == nd' && w.nodes[i := w.nodes[i]] == w.nodes;
  }

  lemma {:induction false} AloneThroughout(cfg: Config, ws: seq<World>, i: nat, uids: seq<string>, t: nat)
    requires Alone(cfg, ws, i, uids) && t < |ws|
    ensures SameCacheAt(cfg, ws, i, t) && (!SetUp(cfg, ws[0], i) ==> ws[t] == ws[0])
  {
    if t > 0 {
      AloneThroughout(cfg, ws, i, uids, t - 1);
      AloneStep(cfg, ws[t - 1], i, uids[t - 1]);
    }
  }

  ghost function Remaining(cfg: Config, w: World, i: nat): nat {
    2 * E.Left(cfg, w) + (if Stale(cfg, w, i) then 1 else 0)
  }

  ghost function RemainingOf(cfg: Config, i: nat): World -> nat {
    w => Remaining(cfg, w, i)
  }

  lemma AloneSpends(cfg: Config, ws: seq<World>, i: nat, uids: seq<string>, t: nat)
    requires Alone(cfg, ws, i, uids) && t < |uids|
    ensures SpendsAt(RemainingOf(cfg, i), ws, t)
  {
    AloneThroughout(cfg, ws, i, uids, t);
    AgentUid(cfg, ws[t], i, uids[t], "");
    AgentMove(cfg, ws[t], i);
  }

  lemma AloneRests(cfg: Config, ws: seq<World>, i: nat, uids: seq<string>, t: nat, u: nat)
    requires Alone(cfg, ws, i, uids) && t < |uids| && u < |uids|
    ensures RestAlike(ws, t, u)
  {
    if ws[u] == ws[t] && ws[t + 1] == ws[t] {
      AloneThroughout(cfg, ws, i, uids, t);
      AgentUid(cfg, ws[t], i, uids[t], uids[u]);
    }
  }

  lemma AloneSettles(cfg: Config, ws: seq<World>, i: nat, uids: seq<string>, t: nat)
    requires Alone(cfg, ws, i, uids) && 2 * E.Left(cfg, ws[0]) + 1 <= t < |uids|
    ensures ws[t + 1] == ws[t]
  {
    forall u: nat | u + 1 < |ws| ensures SpendsAt(RemainingOf(cfg, i), ws, u) {
      AloneSpends(cfg, ws, i, uids, u);
    }
    forall u: nat, v: nat | u + 1 < |ws| && v + 1 < |ws| ensures RestAlike(ws, u, v) {
      AloneRests(cfg, ws, i, uids, u, v);
    }
    SpendsAndRests(RemainingOf(cfg, i), ws, 2 * E.Left(cfg, ws[0]) + 1, t);
  }

  /**
   * An agent lets go. With the environment frozen, from pass number `2 * Left + 1` on its node object is without finalizer
   * and lists nothing but entries that have to stay, uncounted. A node object that was never set up stays as it is.
   */
  lemma AgentLetsGo(cfg: Config, ws: seq<World>, i: nat, uids: seq<string>, t: nat)
    requires Alone(cfg, ws, i, uids) && 2 * E.Left(cfg, ws[0]) + 1 <= t < |uids|
    ensures if SetUp(cfg, ws[0], i) then SetUp(cfg, ws[t], i) && LetGo(ws[t].c, ws[t].cache.owner, ws[t].nodes[i].value)
            else ws[t] == ws[0]
  {
    AloneSettles(cfg, ws, i, uids, t);
    AloneThroughout(cfg, ws, i, uids, t);
    if SetUp(cfg, ws[0], i) {
      AgentRests(cfg, ws[t], i, uids[t]);
    }
  }
}
