/** The teardown of a whole cache ends: all controllers together change something only so often, whatever else happens. */
module DeletionEnds {
  import opened ApiTypes
  import opened Kube
  import opened Fleet
  import AgentSpec
  import OperatorSpec
  import opened Protocol
  import opened Invariants
  import opened Linkage
  import opened LinkProofs
  import opened ObjectProofs
  import opened DeletionMeasure
  import opened Sums
  import A = AgentFacts
  import O = OperatorFacts
  import AgentProofs
  import opened Teardown

  // ---------- What is left to do ----------

  /** An entry counts for itself, for each recorded name, and for not being in condition Deleting. */
  function EntryWeight(entries: map<string, PvcStatus>, ns: string): nat {
    if ns in entries then 1 + Names(entries[ns]) + (if entries[ns].cond != Deleting then 1 else 0) else 0
  }

  function EntriesWeight(cfg: Config, entries: map<string, PvcStatus>): nat {
    SumOver(ns => EntryWeight(entries, ns), cfg.namespaces)
  }

  ghost function NodeWeight(cfg: Config, nd: Option<CacheNode>): nat {
    EntriesWeight(cfg, Holds(nd))
    + (if nd.Some? && nd.value.listed.Some? then 1 else 0)
    + (if nd.Some? && nd.value.finalizer then 1 else 0)
  }

  function CacheWeight(cfg: Config, cache: CacheObj): nat {
    EntriesWeight(cfg, cache.entries)
    + (if cache.owner == Unknown then 1 else 0) + (if cache.finalizer then 1 else 0) + (if cache.gone then 0 else 1)
  }

  /** Live objects, entries with their names and conditions, finalizers, and the cache itself. */
  ghost function Left(cfg: Config, w: World): nat {
    Live(w.c) + SumOver(nd => NodeWeight(cfg, nd), w.nodes) + CacheWeight(cfg, w.cache)
  }

  // ---------- What counts as a change ----------

  ghost predicate SameNode(a: Option<CacheNode>, b: Option<CacheNode>) {
    a == b || (a.Some? && b.Some? && b.value == a.value.(counts := b.value.counts))
  }

  ghost predicate SameCache(a: CacheObj, b: CacheObj) {
    b == a.(counts := b.counts, cond := b.cond)
  }

  /** Nothing but counts, and the condition that sums them up, may differ. */
  ghost predicate SameButCounts(w: World, w': World) {
    && w'.c == w.c && SameCache(w.cache, w'.cache) && |w'.nodes| == |w.nodes|
    && forall i :: 0 <= i < |w.nodes| ==> SameNode(w.nodes[i], w'.nodes[i])
  }

  // ---------- Entries ----------

  /** One entry got lighter or went, or nothing changed. */
  ghost predicate Lighter(cfg: Config, entries: map<string, PvcStatus>, entries': map<string, PvcStatus>, ns: string) {
    && ns in cfg.namespaces && EntryWeight(entries', ns) < EntryWeight(entries, ns)
    && forall n :: n != ns ==> EntryWeight(entries', n) == EntryWeight(entries, n)
  }

  lemma LighterEntries(cfg: Config, entries: map<string, PvcStatus>, entries': map<string, PvcStatus>, ns: string)
    requires Lighter(cfg, entries, entries', ns)
    ensures EntriesWeight(cfg, entries') < EntriesWeight(cfg, entries)
  {
    SumStrictlyBelow(n => EntryWeight(entries', n), n => EntryWeight(entries, n), cfg.namespaces, ns);
  }

  lemma NoHeavierEntries(cfg: Config, entries: map<string, PvcStatus>, entries': map<string, PvcStatus>)
    requires forall n :: EntryWeight(entries', n) <= EntryWeight(entries, n)
    ensures EntriesWeight(cfg, entries') <= EntriesWeight(cfg, entries)
  {
    SumBelow(n => EntryWeight(entries', n), n => EntryWeight(entries, n), cfg.namespaces);
  }

  /** A released entry: the cluster has less that is live, or the same cluster and a lighter entry, or nothing changed. */
  ghost predicate Spends(cfg: Config, c: Cluster, entries: map<string, PvcStatus>, c': Cluster, entries': map<string, PvcStatus>) {
    && EntriesWeight(cfg, entries') <= EntriesWeight(cfg, entries)
    && if c' != c then Live(c') < Live(c)
       else entries' == entries || EntriesWeight(cfg, entries') < EntriesWeight(cfg, entries)
  }

  lemma EntrySpends(cfg: Config, c: Cluster, entries: map<string, PvcStatus>, c': Cluster, e: PvcStatus, ns: string)
    requires ns in cfg.namespaces && ns in entries
    requires Names(e) <= Names(entries[ns]) && (e.cond == entries[ns].cond || e.cond == Deleting)
    requires if c' != c then Live(c') < Live(c)
             else e == entries[ns] || Names(e) < Names(entries[ns]) || e.cond != entries[ns].cond
    ensures Spends(cfg, c, entries, c', entries[ns := e])
  {
    var entries' := entries[ns := e];
    NoHeavierEntries(cfg, entries, entries');
    if e == entries[ns] {
      assert entries' == entries;
    } else if c' == c {
      LighterEntries(cfg, entries, entries', ns);
    }
  }

  lemma DropSpends(cfg: Config, c: Cluster, entries: map<string, PvcStatus>, ns: string)
    requires ns in cfg.namespaces && ns in entries
    ensures Spends(cfg, c, entries, c, entries - {ns})
  {
    NoHeavierEntries(cfg, entries, entries - {ns});
    LighterEntries(cfg, entries, entries - {ns}, ns);
  }

  // ---------- Agent passes ----------

  lemma AgentSpends(v: AgentSpec.View, c: Cluster, entries: map<string, PvcStatus>, c': Cluster, entries': map<string, PvcStatus>, ns: string)
    requires A.Releases(v, c, entries, c', entries', ns)
    ensures Spends(v.cfg, c, entries, c', entries')
  {
    var d := AgentSpec.Release(c, v, entries, ns);
    A.ReleaseIdle(c, v, entries, ns);
    if d.updated {
      if v.owner == Agent {
        AttemptShrinksSupply(c, entries[ns], Agent, AgentSpec.DeleteScope(v, entries, ns));
        DeleteRenames(c, entries[ns], Agent, AgentSpec.DeleteScope(v, entries, ns));
        ManageDeleteQuiet(c, entries[ns], Agent, AgentSpec.DeleteScope(v, entries, ns));
      }
      EntrySpends(v.cfg, c, entries, c', d.e, ns);
    } else {
      DropSpends(v.cfg, c, entries, ns);
    }
  }

  /** The pass of a node leaves less to do, or it leaves the cluster alone and the node object too, but for counts. */
  ghost predicate NodeSpends(cfg: Config, c: Cluster, nd: Option<CacheNode>, c': Cluster, nd': Option<CacheNode>) {
    && NodeWeight(cfg, nd') <= NodeWeight(cfg, nd) && Live(c') <= Live(c)
    && ((c' == c && SameNode(nd, nd')) || Live(c') + NodeWeight(cfg, nd') < Live(c) + NodeWeight(cfg, nd))
  }

  lemma EmptyWeight(cfg: Config, entries: map<string, PvcStatus>)
    ensures EntriesWeight(cfg, map[]) <= EntriesWeight(cfg, entries)
  {
    NoHeavierEntries(cfg, entries, map[]);
  }

  lemma BodySpends(v: AgentSpec.View, c: Cluster, nd: CacheNode, writeOk: bool)
    requires v.deleting
    ensures var p := AgentSpec.PassBody(v, c, nd, writeOk); NodeSpends(v.cfg, c, Some(nd), p.c, Some(p.nd))
  {
    var x := A.BodyEffect(v, c, nd, writeOk);
    if x.Released? {
      AgentSpends(v, c, A.Held(nd), AgentSpec.PassBody(v, c, nd, writeOk).c, x.entries, x.ns);
    } else if x.Forgotten? {
      EmptyWeight(v.cfg, A.Held(nd));
    }
  }

  lemma NodePassSpends(cfg: Config, w: World, i: nat, uid: string, writeOk: bool)
    requires i < |cfg.nodeNames| && i < |w.nodes| && (w.cache.deleting || w.cache.gone)
    ensures var (c, nd) := AgentSpec.NodePass(cfg, w, i, uid, writeOk); NodeSpends(cfg, w.c, w.nodes[i], c, nd)
  {
    if !w.cache.gone && w.nodes[i].Some? && w.nodes[i].value.nodeName == cfg.nodeNames[i] {
      BodySpends(AgentSpec.NodeView(cfg, w, i, uid), w.c, w.nodes[i].value, writeOk);
    }
  }

  lemma AgentStepSpends(cfg: Config, w: World, i: nat, uid: string, writeOk: bool)
    requires i < |cfg.nodeNames| && i < |w.nodes| && (w.cache.deleting || w.cache.gone)
    ensures var w' := AgentSpec.AgentPass(cfg, w, i, uid, writeOk);
            Left(cfg, w') <= Left(cfg, w) && (SameButCounts(w, w') || Left(cfg, w') < Left(cfg, w))
  {
    var (c, nd) := AgentSpec.NodePass(cfg, w, i, uid, writeOk);
    NodePassSpends(cfg, w, i, uid, writeOk);
    SumReplaced((n: Option<CacheNode>) => NodeWeight(cfg, n), w.nodes, i, nd);
  }

  // ---------- Operator passes ----------

  lemma OperatorSpends(cfg: Config, v: OperatorSpec.View, c: Cluster, entries: map<string, PvcStatus>, c': Cluster,
                       entries': map<string, PvcStatus>, ns: string)
    requires v.cfg == cfg && O.Releases(v, c, entries, c', entries', ns)
    ensures Spends(cfg, c, entries, c', entries')
  {
    var r := ManageDelete(c, entries[ns], Operator, Labels(ns, ""));
    AttemptShrinksSupply(c, entries[ns], Operator, Labels(ns, ""));
    DeleteRenames(c, entries[ns], Operator, Labels(ns, ""));
    ManageDeleteQuiet(c, entries[ns], Operator, Labels(ns, ""));
    if r.inUse || r.deleting {
      EntrySpends(cfg, c, entries, c', r.e.(cond := Deleting), ns);
    } else if r.updated {
      EntrySpends(cfg, c, entries, c', r.e, ns);
    } else {
      DropSpends(cfg, c, entries, ns);
    }
  }

  lemma OperatorStepSpends(cfg: Config, w: World, uid: string, writeOk: bool)
    requires w.cache.deleting || w.cache.gone
    ensures var w' := OperatorSpec.OperatorPass(cfg, w, uid, writeOk);
            Left(cfg, w') <= Left(cfg, w) && (SameButCounts(w, w') || Left(cfg, w') < Left(cfg, w))
  {
    var w' := OperatorSpec.OperatorPass(cfg, w, uid, writeOk);
    var x := O.PassEffect(cfg, w, uid, writeOk);
    if x.Released? {
      OperatorSpends(cfg, OperatorSpec.PassView(cfg, w, OperatorSpec.StartStatus(w), uid), w.c, w.cache.entries, w'.c, x.entries, x.ns);
    }
  }

  // ---------- Every step ----------

  lemma StepSpends(cfg: Config, w: World, step: Step)
    requires Enabled(cfg, w, step) && (w.cache.deleting || w.cache.gone)
    ensures var w' := Apply(cfg, w, step);
            && Left(cfg, w') <= Left(cfg, w) && (w'.cache.deleting || w'.cache.gone)
            && (Controls(step) ==> SameButCounts(w, w') || Left(cfg, w') < Left(cfg, w))
  {
    match step
    case AgentStep(i, uid, writeOk) => AgentStepSpends(cfg, w, i, uid, writeOk);
    case OperatorStep(uid, writeOk) =>
      OperatorStepSpends(cfg, w, uid, writeOk);
      var x := O.PassEffect(cfg, w, uid, writeOk);
    case DriftStep(d) => DriftShrinksSupply(w.c, d, NewEntry(Unknown));
    case _ =>
  }

  /** A controller takes step number `t` and changes more than counts. */
  ghost predicate ChangesAt(ws: seq<World>, steps: seq<Step>, t: nat) {
    t < |steps| && t + 1 < |ws| && Controls(steps[t]) && !SameButCounts(ws[t], ws[t + 1])
  }

  ghost function ChangesBetween(ws: seq<World>, steps: seq<Step>, s: nat, t: nat): nat
    requires s <= t
    decreases t - s
  {
    if s == t then 0 else ChangesBetween(ws, steps, s, t - 1) + (if ChangesAt(ws, steps, t - 1) then 1 else 0)
  }

  ghost predicate Ending(w: World) {
    w.cache.deleting || w.cache.gone
  }

  /** Step number `t` pays for what it changes. */
  ghost predicate PaidAt(cfg: Config, ws: seq<World>, steps: seq<Step>, t: nat) {
    t < |steps| && t + 1 < |ws| &&
    (Ending(ws[t]) ==>
       Ending(ws[t + 1]) && (if ChangesAt(ws, steps, t) then 1 else 0) + Left(cfg, ws[t + 1]) <= Left(cfg, ws[t]))
  }

  lemma StepPays(cfg: Config, ws: seq<World>, steps: seq<Step>, t: nat)
    requires Run(cfg, ws, steps) && t < |steps|
    ensures PaidAt(cfg, ws, steps, t)
  {
    if Ending(ws[t]) {
      StepSpends(cfg, ws[t], steps[t]);
    }
  }

  lemma {:induction false} AllPaid(cfg: Config, ws: seq<World>, steps: seq<Step>, s: nat, t: nat)
    requires s <= t < |ws| && Ending(ws[s]) && forall u: nat :: s <= u < t ==> PaidAt(cfg, ws, steps, u)
    ensures Ending(ws[t]) && ChangesBetween(ws, steps, s, t) + Left(cfg, ws[t]) <= Left(cfg, ws[s])
    decreases t - s
  {
    if s < t {
      AllPaid(cfg, ws, steps, s, t - 1);
      assert PaidAt(cfg, ws, steps, t - 1);
    }
  }

  /**
   * Deletion ends. Once a cache is being deleted, all controllers together, in any interleaving with the cluster, with each
   * other and with lost writes, change something other than counts at most as often as there were live objects, entries,
   * names and finalizers when the deletion began.
   */
  lemma DeletionEnds(cfg: Config, ws: seq<World>, steps: seq<Step>, s: nat, t: nat)
    requires Run(cfg, ws, steps) && s <= t < |ws| && Ending(ws[s])
    ensures Ending(ws[t]) && ChangesBetween(ws, steps, s, t) + Left(cfg, ws[t]) <= Left(cfg, ws[s])
  {
    forall u: nat | s <= u < t ensures PaidAt(cfg, ws, steps, u) {
      StepPays(cfg, ws, steps, u);
    }
    AllPaid(cfg, ws, steps, s, t);
  }
}
