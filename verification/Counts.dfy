/** What the counts of a node mean, whatever the order of its namespaces, and what their sum can be. */
module Counts {
  import opened ApiTypes
  import opened Kube
  import opened Fleet
  import opened AgentSpec
  import AgentFacts
  import OperatorSpec
  import opened Protocol
  import opened Invariants
  import RunProofs
  import opened Sums

  // ---------- What is counted ----------

  function Has(entries: map<string, PvcStatus>, ns: string, conds: set<Condition>): bool {
    ns in entries && entries[ns].cond in conds
  }

  predicate Any(entries: map<string, PvcStatus>, spaces: seq<string>, conds: set<Condition>) {
    exists i :: 0 <= i < |spaces| && Has(entries, spaces[i], conds)
  }

  function Mounts(c: Cluster, node: string, cache: string, entries: map<string, PvcStatus>, conds: set<Condition>): string -> nat {
    ns => if Has(entries, ns, conds) && entries[ns].pvcName != "" then UseCount(c.pods, node, ns, cache) else 0
  }

  function Ones(entries: map<string, PvcStatus>, conds: set<Condition>): string -> nat {
    ns => if Has(entries, ns, conds) then 1 else 0
  }

  /** The counts of a list of namespaces, stated without any order. */
  ghost predicate Tally(c: Cluster, node: string, cache: string, entries: map<string, PvcStatus>, spaces: seq<string>, cnts: CacheCounts) {
    && (cnts.nodeInUse == if Any(entries, spaces, {Running, Deleting}) then 1 else 0)
    && (cnts.nodeNotInUse ==
        if Any(entries, spaces, {Extracted}) && !Any(entries, spaces, {Running, Deleting}) then 1 else 0)
    && cnts.podRunning == SumOver(Mounts(c, node, cache, entries, {Running}), spaces)
    && cnts.podDeleting == SumOver(Mounts(c, node, cache, entries, {Deleting}), spaces)
    && cnts.nodeError == SumOver(Ones(entries, {Error, UnloadError}), spaces)
    && cnts.podOutdated == 0
  }

  lemma AnyExtends(entries: map<string, PvcStatus>, spaces: seq<string>, ns: string, conds: set<Condition>)
    ensures Any(entries, spaces + [ns], conds) <==> Any(entries, spaces, conds) || Has(entries, ns, conds)
  {
    var longer := spaces + [ns];
    assert forall i :: 0 <= i < |spaces| ==> longer[i] == spaces[i];
    assert longer[|spaces|] == ns;
  }

  lemma SumExtends(f: string -> nat, spaces: seq<string>, ns: string)
    ensures SumOver(f, spaces + [ns]) == SumOver(f, spaces) + f(ns)
  {
    assert (spaces + [ns])[..|spaces|] == spaces;
  }

  lemma TallyExtends(entries: map<string, PvcStatus>, spaces: seq<string>, ns: string)
    ensures forall conds :: Any(entries, spaces + [ns], conds) <==> Any(entries, spaces, conds) || Has(entries, ns, conds)
    ensures forall f :: SumOver(f, spaces + [ns]) == SumOver(f, spaces) + f(ns)
  {
    forall conds ensures Any(entries, spaces + [ns], conds) <==> Any(entries, spaces, conds) || Has(entries, ns, conds) {
      AnyExtends(entries, spaces, ns, conds);
    }
    forall f ensures SumOver(f, spaces + [ns]) == SumOver(f, spaces) + f(ns) {
      SumExtends(f, spaces, ns);
    }
  }

  lemma TallyEntry(c: Cluster, v: View, entries: map<string, PvcStatus>, spaces: seq<string>, ns: string, cnts: CacheCounts)
    requires Tally(c, v.node, v.cfg.cache, entries, spaces, cnts) && ns in entries
    requires !AddCounts(c, v, ns, entries[ns], cnts).updated
    ensures Tally(c, v.node, v.cfg.cache, entries, spaces + [ns], AddCounts(c, v, ns, entries[ns], cnts).cnts)
  {
    TallyExtends(entries, spaces, ns);
    var cond := entries[ns].cond;
    assert Has(entries, ns, {Running}) <==> cond == Running;
    assert Has(entries, ns, {Deleting}) <==> cond == Deleting;
    assert Has(entries, ns, {Running, Deleting}) <==> cond == Running || cond == Deleting;
    assert Has(entries, ns, {Extracted}) <==> cond == Extracted;
    assert Has(entries, ns, {Error, UnloadError}) <==> cond == Error || cond == UnloadError;
  }

  lemma TallySkip(c: Cluster, v: View, entries: map<string, PvcStatus>, spaces: seq<string>, ns: string, cnts: CacheCounts)
    requires Tally(c, v.node, v.cfg.cache, entries, spaces, cnts)
    requires ns !in entries || entries[ns].cond == Pending
    ensures Tally(c, v.node, v.cfg.cache, entries, spaces + [ns], cnts)
  {
    TallyExtends(entries, spaces, ns);
  }

  // ---------- The namespace loop ----------

  /** One namespace of a quiet loop, with the entries it leaves alone. */
  lemma ModifyQuietStep(v: View, s: Loop, k: nat) returns (cnts: CacheCounts)
    requires k < |v.cfg.namespaces| && !s.updated && !ModifyFrom(v, s, k).updated
    ensures ModifyFrom(v, s, k) == ModifyFrom(v, s.(cnts := cnts), k + 1)
    ensures var ns := v.cfg.namespaces[k];
            || (cnts == s.cnts && (ns !in s.entries || s.entries[ns].cond == Pending))
            || (ns in s.entries && !AddCounts(s.c, v, ns, s.entries[ns], s.cnts).updated
                && cnts == AddCounts(s.c, v, ns, s.entries[ns], s.cnts).cnts)
  {
    var ns := v.cfg.namespaces[k];
    var e := AgentFacts.EntryOr(v, s.entries, ns);
    var m := Modify(s.c, v, ns, e);
    AgentFacts.ModifyIdle(s.c, v, ns, e);
    UpdatedStays(v, s.(c := m.c, updated := true), k + 1);
    cnts := if m.err then s.cnts else AddCounts(m.c, v, ns, m.e, s.cnts).cnts;
    assert s.(updated := s.updated) == s;
  }

  lemma ModifyTallyStep(v: View, s: Loop, k: nat) returns (cnts: CacheCounts)
    requires k < |v.cfg.namespaces| && !s.updated && !ModifyFrom(v, s, k).updated
    requires Tally(s.c, v.node, v.cfg.cache, s.entries, v.cfg.namespaces[..k], s.cnts)
    ensures ModifyFrom(v, s, k) == ModifyFrom(v, s.(cnts := cnts), k + 1)
    ensures Tally(s.c, v.node, v.cfg.cache, s.entries, v.cfg.namespaces[..k + 1], cnts)
  {
    var spaces, ns := v.cfg.namespaces, v.cfg.namespaces[k];
    assert spaces[..k + 1] == spaces[..k] + [ns];
    cnts := ModifyQuietStep(v, s, k);
    if cnts == s.cnts && (ns !in s.entries || s.entries[ns].cond == Pending) {
      TallySkip(s.c, v, s.entries, spaces[..k], ns, s.cnts);
    } else {
      TallyEntry(s.c, v, s.entries, spaces[..k], ns, s.cnts);
    }
  }

  lemma {:induction false} ModifyTally(v: View, s: Loop, k: nat)
    requires k <= |v.cfg.namespaces| && !s.updated && !ModifyFrom(v, s, k).updated
    requires Tally(s.c, v.node, v.cfg.cache, s.entries, v.cfg.namespaces[..k], s.cnts)
    ensures Tally(s.c, v.node, v.cfg.cache, s.entries, v.cfg.namespaces, ModifyFrom(v, s, k).cnts)
    decreases |v.cfg.namespaces| - k
  {
    if k == |v.cfg.namespaces| {
      assert v.cfg.namespaces[..k] == v.cfg.namespaces;
    } else {
      var cnts := ModifyTallyStep(v, s, k);
      ModifyTally(v, s.(cnts := cnts), k + 1);
    }
  }

  lemma UpdatedStays(v: View, s: Loop, k: nat)
    requires k <= |v.cfg.namespaces| && s.updated
    ensures ModifyFrom(v, s, k).updated
  {
    var ns := AgentFacts.ModifyLoop(v, s, k);
  }

  lemma {:induction false} ReleaseTally(v: View, s: Loop, k: nat)
    requires k <= |v.cfg.namespaces| && !s.updated && !ReleaseFrom(v, s, k).updated && Unique(s.c)
    requires Tally(s.c, v.node, v.cfg.cache, s.entries, v.cfg.namespaces[..k], s.cnts)
    ensures Tally(s.c, v.node, v.cfg.cache, s.entries, v.cfg.namespaces, ReleaseFrom(v, s, k).cnts)
    decreases |v.cfg.namespaces| - k
  {
    var spaces := v.cfg.namespaces;
    if k == |spaces| {
      assert spaces[..k] == spaces;
    } else {
      var ns := spaces[k];
      assert spaces[..k + 1] == spaces[..k] + [ns];
      if ns !in s.entries {
        TallySkip(s.c, v, s.entries, spaces[..k], ns, s.cnts);
        ReleaseTally(v, s, k + 1);
      } else {
        var d := Release(s.c, v, s.entries, ns);
        AgentFacts.ReleaseIdle(s.c, v, s.entries, ns);
        UniqueDelete(s.c, s.entries[ns], Agent, DeleteScope(v, s.entries, ns));
        TallyEntry(s.c, v, s.entries, spaces[..k], ns, s.cnts);
        ReleaseTally(v, s.(c := d.c, updated := d.updated, inUse := s.inUse || d.held,
                           cnts := AddCounts(d.c, v, ns, d.e, s.cnts).cnts), k + 1);
      }
    }
  }

  /** A pass whose namespace loop changes nothing counts exactly what the entries and the pods say. */
  lemma QuietLoopCounts(v: View, c: Cluster, entries: map<string, PvcStatus>)
    requires Unique(c) && !RunLoop(v, StartLoop(c, Some(entries))).updated
    ensures Tally(c, v.node, v.cfg.cache, entries, v.cfg.namespaces, RunLoop(v, StartLoop(c, Some(entries))).cnts)
  {
    var s := StartLoop(c, Some(entries));
    assert v.cfg.namespaces[..0] == [];
    if v.deleting {
      ReleaseTally(v, s, 0);
    } else {
      ModifyTally(v, s, 0);
    }
  }

  lemma AnyIsOrderFree(entries: map<string, PvcStatus>, a: seq<string>, b: seq<string>, conds: set<Condition>)
    requires multiset(a) == multiset(b) && Any(entries, a, conds)
    ensures Any(entries, b, conds)
  {
    var i :| 0 <= i < |a| && Has(entries, a[i], conds);
    assert a[i] in multiset(b);
    var j :| 0 <= j < |b| && b[j] == a[i];
  }

  lemma TallyIsOrderFree(c: Cluster, node: string, cache: string, entries: map<string, PvcStatus>, a: seq<string>, b: seq<string>, cnts: CacheCounts)
    requires multiset(a) == multiset(b) && Tally(c, node, cache, entries, a, cnts)
    ensures Tally(c, node, cache, entries, b, cnts)
  {
    SumIsOrderFree(Mounts(c, node, cache, entries, {Running}), a, b);
    SumIsOrderFree(Mounts(c, node, cache, entries, {Deleting}), a, b);
    SumIsOrderFree(Ones(entries, {Error, UnloadError}), a, b);
    forall conds ensures Any(entries, a, conds) <==> Any(entries, b, conds) {
      if Any(entries, a, conds) {
        AnyIsOrderFree(entries, a, b, conds);
      } else if Any(entries, b, conds) {
        AnyIsOrderFree(entries, b, a, conds);
      }
    }
  }

  /** Two nodes that differ only in the order of their namespace list report the same counts. */
  lemma CountsAreOrderFree(v: View, u: View, c: Cluster, entries: map<string, PvcStatus>)
    requires Unique(c)
    requires u == v.(cfg := v.cfg.(namespaces := u.cfg.namespaces))
    requires multiset(v.cfg.namespaces) == multiset(u.cfg.namespaces)
    requires !RunLoop(v, StartLoop(c, Some(entries))).updated && !RunLoop(u, StartLoop(c, Some(entries))).updated
    ensures var a := RunLoop(v, StartLoop(c, Some(entries))).cnts;
            var b := RunLoop(u, StartLoop(c, Some(entries))).cnts;
            a.(nodeCnt := 0) == b.(nodeCnt := 0)
  {
    QuietLoopCounts(v, c, entries);
    QuietLoopCounts(u, c, entries);
    TallyIsOrderFree(c, v.node, v.cfg.cache, entries, v.cfg.namespaces, u.cfg.namespaces, RunLoop(v, StartLoop(c, Some(entries))).cnts);
  }

  // ---------- The operator's sum ----------

  function Listing(nodes: seq<Option<CacheNode>>, count: nat): nat
    requires count <= |nodes|
  {
    if count == 0 then 0 else Listing(nodes, count - 1) + (if OperatorSpec.Lists(nodes[count - 1]) then 1 else 0)
  }

  lemma {:induction false} SumBounded(nodes: seq<Option<CacheNode>>, count: nat)
    requires count <= |nodes|
    requires forall i :: 0 <= i < count && OperatorSpec.Lists(nodes[i]) ==>
                           nodes[i].value.counts.nodeInUse + nodes[i].value.counts.nodeNotInUse <= 1 && nodes[i].value.counts.nodeCnt <= 1
    ensures var sum := OperatorSpec.SumCounts(nodes, count);
            sum.nodeInUse + sum.nodeNotInUse <= Listing(nodes, count) && sum.nodeCnt <= Listing(nodes, count) <= count
  {
    if count > 0 {
      SumBounded(nodes, count - 1);
    }
  }

  /** In every state of every run a node is counted at most once, as in use or as not in use. */
  lemma NodesCountedOnce(cfg: Config, ws: seq<World>, steps: seq<Step>, t: nat)
    requires Run(cfg, ws, steps) && t < |ws|
    ensures var sum := OperatorSpec.Collected(ws[t]);
            && sum.nodeInUse + sum.nodeNotInUse <= Listing(ws[t].nodes, |ws[t].nodes|) <= |cfg.nodeNames|
            && sum.nodeCnt <= Listing(ws[t].nodes, |ws[t].nodes|)
  {
    RunProofs.RunInv(cfg, ws, steps, t);
    forall i | 0 <= i < |ws[t].nodes| && OperatorSpec.Lists(ws[t].nodes[i])
      ensures ws[t].nodes[i].value.counts.nodeInUse + ws[t].nodes[i].value.counts.nodeNotInUse <= 1
      ensures ws[t].nodes[i].value.counts.nodeCnt <= 1
    {
      assert NodeShape(cfg, ws[t].cache, cfg.nodeNames[i], ws[t].nodes[i].value);
    }
    SumBounded(ws[t].nodes, |ws[t].nodes|);
  }
}
