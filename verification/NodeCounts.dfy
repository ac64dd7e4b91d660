/** What the collected counts mean: numbers of nodes, and sums of what nodes report. */
module NodeCounts {
  import opened ApiTypes
  import opened Kube
  import opened Fleet
  import opened OperatorSpec
  import opened Sums

  datatype Field = NodeCnt | NodeInUse | NodeNotInUse | NodeError | PodRunning | PodDeleting | PodOutdated

  function Pick(field: Field, cnts: CacheCounts): nat {
    match field
    case NodeCnt => cnts.nodeCnt
    case NodeInUse => cnts.nodeInUse
    case NodeNotInUse => cnts.nodeNotInUse
    case NodeError => cnts.nodeError
    case PodRunning => cnts.podRunning
    case PodDeleting => cnts.podDeleting
    case PodOutdated => cnts.podOutdated
  }

  lemma PickPlus(field: Field, a: CacheCounts, b: CacheCounts)
    ensures Pick(field, a.Plus(b)) == Pick(field, a) + Pick(field, b)
  {
  }

  // ---------- One namespace ----------

  /** The node lists the cache with an entry for the namespace in one of the conditions. */
  predicate InCondition(nd: Option<CacheNode>, ns: string, conds: set<Condition>) {
    nd.Some? && nd.value.listed.Some? && ns in nd.value.listed.value && nd.value.listed.value[ns].cond in conds
  }

  /** The nodes, among the first `count`, whose entry for the namespace is in one of the conditions. */
  ghost function NodesIn(nodes: seq<Option<CacheNode>>, ns: string, conds: set<Condition>, count: nat): set<int>
    requires count <= |nodes|
  {
    set n | 0 <= n < count && InCondition(nodes[n], ns, conds)
  }

  lemma NodesInOneMore(nodes: seq<Option<CacheNode>>, ns: string, conds: set<Condition>, count: nat)
    requires count < |nodes|
    ensures NodesIn(nodes, ns, conds, count + 1)
            == NodesIn(nodes, ns, conds, count) + (if InCondition(nodes[count], ns, conds) then {count} else {})
  {
  }

  lemma NodesInNext(nodes: seq<Option<CacheNode>>, ns: string, conds: set<Condition>, count: nat)
    requires count < |nodes|
    ensures |NodesIn(nodes, ns, conds, count + 1)|
            == |NodesIn(nodes, ns, conds, count)| + (if InCondition(nodes[count], ns, conds) then 1 else 0)
  {
    NodesInOneMore(nodes, ns, conds, count);
    assert count !in NodesIn(nodes, ns, conds, count);
  }

  /** The counts of a namespace are numbers of nodes by condition. */
  ghost predicate CountsNodes(nodes: seq<Option<CacheNode>>, ns: string, count: nat, cnts: CacheCounts)
    requires count <= |nodes|
  {
    && cnts.nodeInUse == |NodesIn(nodes, ns, {Running}, count)|
    && cnts.nodeNotInUse == |NodesIn(nodes, ns, {Extracted}, count)|
    && cnts.podDeleting == |NodesIn(nodes, ns, {Deleting}, count)|
    && cnts.nodeError == |NodesIn(nodes, ns, {Error, UnloadError}, count)|
    && cnts.podOutdated == |NodesIn(nodes, ns, {Outdated}, count)|
    && cnts.nodeCnt == 0 && cnts.podRunning == 0
  }

  function Conditions(field: Field): set<Condition> {
    match field
    case NodeInUse => {Running}
    case NodeNotInUse => {Extracted}
    case PodDeleting => {Deleting}
    case NodeError => {Error, UnloadError}
    case PodOutdated => {Outdated}
    case _ => {}
  }

  lemma PickCondition(field: Field, cond: Condition)
    ensures Pick(field, ConditionCount(cond)) == if cond in Conditions(field) then 1 else 0
  {
  }

  lemma PickStep(nodes: seq<Option<CacheNode>>, ns: string, count: nat, field: Field)
    requires count < |nodes|
    ensures Pick(field, SpaceCounts(nodes, ns, count + 1))
            == Pick(field, SpaceCounts(nodes, ns, count)) + (if InCondition(nodes[count], ns, Conditions(field)) then 1 else 0)
  {
    if Lists(nodes[count]) && ns in nodes[count].value.listed.value {
      var cond := nodes[count].value.listed.value[ns].cond;
      PickCondition(field, cond);
      PickPlus(field, SpaceCounts(nodes, ns, count), ConditionCount(cond));
    }
  }

  lemma {:induction false} PickedExactly(nodes: seq<Option<CacheNode>>, ns: string, count: nat, field: Field)
    requires count <= |nodes|
    ensures Pick(field, SpaceCounts(nodes, ns, count)) == |NodesIn(nodes, ns, Conditions(field), count)|
  {
    if count == 0 {
      assert NodesIn(nodes, ns, Conditions(field), 0) == {};
    } else {
      PickedExactly(nodes, ns, count - 1, field);
      NodesInNext(nodes, ns, Conditions(field), count - 1);
      PickStep(nodes, ns, count - 1, field);
    }
  }

  lemma SpaceCountsExactly(nodes: seq<Option<CacheNode>>, ns: string, count: nat)
    requires count <= |nodes|
    ensures CountsNodes(nodes, ns, count, SpaceCounts(nodes, ns, count))
  {
    forall field ensures Pick(field, SpaceCounts(nodes, ns, count)) == |NodesIn(nodes, ns, Conditions(field), count)| {
      PickedExactly(nodes, ns, count, field);
    }
    SpelledOut(nodes, ns, count, SpaceCounts(nodes, ns, count));
  }

  lemma SpelledOut(nodes: seq<Option<CacheNode>>, ns: string, count: nat, cnts: CacheCounts)
    requires count <= |nodes|
    requires forall field :: Pick(field, cnts) == |NodesIn(nodes, ns, Conditions(field), count)|
    ensures CountsNodes(nodes, ns, count, cnts)
  {
    assert Pick(NodeCnt, cnts) == |NodesIn(nodes, ns, {}, count)| && Pick(PodRunning, cnts) == |NodesIn(nodes, ns, {}, count)|;
    assert NodesIn(nodes, ns, {}, count) == {};
    assert Pick(NodeInUse, cnts) == |NodesIn(nodes, ns, {Running}, count)|;
    assert Pick(NodeNotInUse, cnts) == |NodesIn(nodes, ns, {Extracted}, count)|;
    assert Pick(PodDeleting, cnts) == |NodesIn(nodes, ns, {Deleting}, count)|;
    assert Pick(NodeError, cnts) == |NodesIn(nodes, ns, {Error, UnloadError}, count)|;
    assert Pick(PodOutdated, cnts) == |NodesIn(nodes, ns, {Outdated}, count)|;
  }

  // ---------- The whole cache ----------

  /** What a node object contributes: its counts when it lists the cache. */
  function Contribution(nd: Option<CacheNode>): CacheCounts {
    if nd.Some? && nd.value.listed.Some? then nd.value.counts else ZERO_COUNTS
  }

  /** Each of the counts is the sum of that count over the nodes that list the cache. */
  ghost predicate SumsNodes(nodes: seq<Option<CacheNode>>, cnts: CacheCounts) {
    && cnts.nodeCnt == SumOver(nd => Contribution(nd).nodeCnt, nodes)
    && cnts.nodeInUse == SumOver(nd => Contribution(nd).nodeInUse, nodes)
    && cnts.nodeNotInUse == SumOver(nd => Contribution(nd).nodeNotInUse, nodes)
    && cnts.nodeError == SumOver(nd => Contribution(nd).nodeError, nodes)
    && cnts.podRunning == SumOver(nd => Contribution(nd).podRunning, nodes)
    && cnts.podDeleting == SumOver(nd => Contribution(nd).podDeleting, nodes)
    && cnts.podOutdated == SumOver(nd => Contribution(nd).podOutdated, nodes)
  }

  lemma ContributionStep(nodes: seq<Option<CacheNode>>, count: nat, field: Field)
    requires count < |nodes|
    ensures Pick(field, SumCounts(nodes, count + 1)) == Pick(field, SumCounts(nodes, count)) + Pick(field, Contribution(nodes[count]))
  {
    if Lists(nodes[count]) {
      PickPlus(field, SumCounts(nodes, count), nodes[count].value.counts);
    }
  }

  lemma {:induction false} PickSum(nodes: seq<Option<CacheNode>>, count: nat, field: Field, f: Option<CacheNode> -> nat)
    requires count <= |nodes| && forall nd :: f(nd) == Pick(field, Contribution(nd))
    ensures Pick(field, SumCounts(nodes, count)) == SumOver(f, nodes[..count])
  {
    if count > 0 {
      PickSum(nodes, count - 1, field, f);
      ContributionStep(nodes, count - 1, field);
      assert nodes[..count][..count - 1] == nodes[..count - 1] && nodes[..count][count - 1] == nodes[count - 1];
    }
  }

  lemma SumCountsExactly(nodes: seq<Option<CacheNode>>)
    ensures SumsNodes(nodes, SumCounts(nodes, |nodes|))
  {
    var n := |nodes|;
    PickSum(nodes, n, NodeCnt, nd => Contribution(nd).nodeCnt);
    PickSum(nodes, n, NodeInUse, nd => Contribution(nd).nodeInUse);
    PickSum(nodes, n, NodeNotInUse, nd => Contribution(nd).nodeNotInUse);
    PickSum(nodes, n, NodeError, nd => Contribution(nd).nodeError);
    PickSum(nodes, n, PodRunning, nd => Contribution(nd).podRunning);
    PickSum(nodes, n, PodDeleting, nd => Contribution(nd).podDeleting);
    PickSum(nodes, n, PodOutdated, nd => Contribution(nd).podOutdated);
    assert nodes[..n] == nodes;
  }

  // ---------- The status while there is something to do ----------

  lemma BusyPass(cfg: Config, w: World, uid: string)
    requires OperatorPass(cfg, w, uid, true).cache.entries != w.cache.entries
    ensures var cache := OperatorPass(cfg, w, uid, true).cache;
            cache.owner == StartStatus(w).owner && cache.counts == StartStatus(w).counts && cache.cond == StartStatus(w).cond
  {
  }

  /**
   * A pass that changes entries writes, for a cache that the agents own, the sums over the nodes, and zeros for any other;
   * the condition stays what it was, or is Pending when the owner has just been decided.
   */
  lemma StatusWhileBusy(cfg: Config, w: World, uid: string)
    requires OperatorPass(cfg, w, uid, true).cache.entries != w.cache.entries
    ensures var cache := OperatorPass(cfg, w, uid, true).cache;
            && cache.owner != Unknown && (if cache.owner == Agent then SumsNodes(w.nodes, cache.counts) else cache.counts == ZERO_COUNTS)
            && cache.cond == (if w.cache.owner == Unknown then Some(Pending) else w.cache.cond)
  {
    BusyPass(cfg, w, uid);
    SumCountsExactly(w.nodes);
  }
}
