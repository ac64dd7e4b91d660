/** Every agent pass keeps the invariants. */
module AgentProofs {
  import opened ApiTypes
  import opened Kube
  import opened Fleet
  import opened AgentSpec
  import opened AgentFacts
  import opened AgentMoves
  import opened Protocol
  import opened Invariants
  import opened ObjectProofs

  /** The world with the outcome of the pass of node `i` put in. */
  ghost function Put(w: World, i: nat, p: Pass): World
    requires i < |w.nodes|
  {
    w.(c := p.c, nodes := w.nodes[i := Some(p.nd)])
  }

  ghost predicate Ready(cfg: Config, w: World, i: nat, uid: string) {
    && Inv(cfg, w)
    && i < |w.nodes|
    && !w.cache.gone
    && FreshUid(w.c.log, uid)
    && w.nodes[i].Some? && w.nodes[i].value.nodeName == cfg.nodeNames[i]
  }

  // ---------- Passes that leave the cluster alone ----------

  lemma AllHeldDeleting(cfg: Config, w: World, i: nat, uid: string)
    requires Ready(cfg, w, i, uid)
    requires var v := NodeView(cfg, w, i, uid); AllHeld(v, StartLoop(w.c, w.nodes[i].value.listed), 0)
    ensures forall ns :: HasEntry(w, i, ns) ==> Entry(w, i, ns).cond == Deleting
  {
    var v := NodeView(cfg, w, i, uid);
    var nd := w.nodes[i].value;
    forall ns | HasEntry(w, i, ns) ensures Entry(w, i, ns).cond == Deleting {
      assert EntryShape(cfg, w.cache, nd, ns, nd.listed.value[ns]);
      var j :| 0 <= j < |cfg.namespaces| && cfg.namespaces[j] == ns;
      UniqueDelete(w.c, Entry(w, i, ns), Agent, DeleteScope(v, nd.listed.value, ns));
      assert v.cfg.namespaces[j] in nd.listed.value;
    }
  }

  lemma QuietShape(cfg: Config, w: World, i: nat, uid: string, p: Pass, x: Effect)
    requires Ready(cfg, w, i, uid)
    requires !x.Modified? && !x.Released?
    requires Did(NodeView(cfg, w, i, uid), w.c, w.nodes[i].value, p, x)
    ensures NodeShape(cfg, w.cache, cfg.nodeNames[i], p.nd)
    ensures NodeBacked(w, cfg.nodeNames[i], p.nd)
    ensures p.c == w.c
    ensures w.cache.deleting || Held(p.nd) == Held(w.nodes[i].value)
  {
    var nd := w.nodes[i].value;
    assert NodeShape(cfg, w.cache, cfg.nodeNames[i], nd);
    assert NodeBacked(w, cfg.nodeNames[i], nd);
    if x.Unfinalized? && nd.listed.Some? {
      AllHeldDeleting(cfg, w, i, uid);
      assert forall ns :: ns in nd.listed.value ==> HasEntry(w, i, ns);
    }
    if x.Counted? && w.cache.owner == Agent && p.nd.counts.nodeInUse + p.nd.counts.nodeNotInUse > 0 {
      var ns :| ns in nd.listed.value && nd.listed.value[ns].cond in {Extracted, Running, Deleting};
      assert EntryBacked(w, cfg.nodeNames[i], ns, nd.listed.value[ns]);
    }
  }

  lemma QuietKeeps(cfg: Config, w: World, i: nat, uid: string, p: Pass, x: Effect)
    requires Ready(cfg, w, i, uid)
    requires !x.Modified? && !x.Released?
    requires Did(NodeView(cfg, w, i, uid), w.c, w.nodes[i].value, p, x)
    ensures Inv(cfg, Put(w, i, p))
  {
    QuietShape(cfg, w, i, uid, p, x);
    var w' := Put(w, i, p);
    forall j | 0 <= j < |w'.nodes| && w'.nodes[j].Some? ensures NodeBacked(w', cfg.nodeNames[j], w'.nodes[j].value) {
      if j != i {
        assert NodeBacked(w, cfg.nodeNames[j], w.nodes[j].value);
      }
    }
    forall k | k in w'.c.jobs ensures JobBacked(cfg, w', k.ns, w'.c.jobs[k]) {
      assert JobBacked(cfg, w, k.ns, w.c.jobs[k]);
      BackedStays(cfg, w, w', i, k);
    }
  }

  /** A Job stays backed when the only node that changes keeps its entries. */
  lemma BackedStays(cfg: Config, w: World, w': World, i: nat, k: ObjKey)
    requires Shape(cfg, w) && i < |w.nodes| == |w'.nodes|
    requires k in w.c.jobs && k in w'.c.jobs && JobBacked(cfg, w, k.ns, w.c.jobs[k])
    requires w'.c.jobs[k].node == w.c.jobs[k].node && w'.c.jobs[k].pvc == w.c.jobs[k].pvc
    requires w'.cache.deleting == w.cache.deleting
    requires w'.nodes == w.nodes[i := w'.nodes[i]] && w.nodes[i].Some? && w'.nodes[i].Some?
    requires w.cache.deleting || Held(w'.nodes[i].value) == Held(w.nodes[i].value)
    ensures JobBacked(cfg, w', k.ns, w'.c.jobs[k])
  {
    if w.c.jobs[k].node != "" && !w.cache.deleting {
      var j: nat :| j < |cfg.nodeNames| && cfg.nodeNames[j] == w.c.jobs[k].node
                    && HasEntry(w, j, k.ns) && Entry(w, j, k.ns).pvcName == w.c.jobs[k].pvc;
      if j == i {
        assert k.ns in Held(w.nodes[i].value);
      }
      assert HasEntry(w', j, k.ns) && Entry(w', j, k.ns).pvcName == w.c.jobs[k].pvc;
    }
  }

  // ---------- Teardown passes ----------

  lemma ReleaseEntry(c: Cluster, v: View, entries: map<string, PvcStatus>, ns: string)
    requires ns in entries
    ensures var d := Release(c, v, entries, ns);
            Renamed(entries[ns], d.e.(cond := entries[ns].cond)) && (d.e.cond == entries[ns].cond || d.e.cond == Deleting)
    ensures var d := Release(c, v, entries, ns); Marks(c, d.c) && Shrinks(c, d.c)
  {
    if v.owner == Agent {
      DeleteMarks(c, entries[ns], Agent, DeleteScope(v, entries, ns));
      DeleteRenames(c, entries[ns], Agent, DeleteScope(v, entries, ns));
    }
  }

  lemma ReleasedEntries(cfg: Config, w: World, i: nat, uid: string, c: Cluster, entries: map<string, PvcStatus>, ns: string)
    requires Ready(cfg, w, i, uid) && w.cache.deleting && w.nodes[i].value.listed.Some?
    requires Releases(NodeView(cfg, w, i, uid), w.c, w.nodes[i].value.listed.value, c, entries, ns)
    ensures Marks(w.c, c) && Shrinks(w.c, c)
    ensures forall n :: n in entries ==>
                          EntryShape(cfg, w.cache, w.nodes[i].value, n, entries[n]) && EntryBacked(w, cfg.nodeNames[i], n, entries[n])
  {
    var nd := w.nodes[i].value;
    var listed := nd.listed.value;
    ReleaseEntry(w.c, NodeView(cfg, w, i, uid), listed, ns);
    assert NodeShape(cfg, w.cache, cfg.nodeNames[i], nd) && NodeBacked(w, cfg.nodeNames[i], nd);
    assert EntryShape(cfg, w.cache, nd, ns, listed[ns]) && EntryBacked(w, cfg.nodeNames[i], ns, listed[ns]);
    forall n | n in entries
      ensures EntryShape(cfg, w.cache, nd, n, entries[n]) && EntryBacked(w, cfg.nodeNames[i], n, entries[n])
    {
      if n != ns {
        assert EntryShape(cfg, w.cache, nd, n, listed[n]) && EntryBacked(w, cfg.nodeNames[i], n, listed[n]);
      }
    }
  }

  lemma ReleasedNodes(cfg: Config, w: World, i: nat, uid: string, p: Pass, x: Effect)
    requires Ready(cfg, w, i, uid)
    requires x.Released? && Did(NodeView(cfg, w, i, uid), w.c, w.nodes[i].value, p, x)
    ensures var w' := Put(w, i, p); Shape(cfg, w') && Success(cfg, w') && Marks(w.c, p.c) && Shrinks(w.c, p.c)
  {
    var w' := Put(w, i, p);
    ReleasedEntries(cfg, w, i, uid, p.c, x.entries, x.ns);
    forall j | 0 <= j < |w'.nodes| && w'.nodes[j].Some?
      ensures NodeShape(cfg, w'.cache, cfg.nodeNames[j], w'.nodes[j].value)
      ensures NodeBacked(w', cfg.nodeNames[j], w'.nodes[j].value)
    {
      var nd := w.nodes[j].value;
      assert NodeShape(cfg, w.cache, cfg.nodeNames[j], nd) && NodeBacked(w, cfg.nodeNames[j], nd);
    }
  }

  lemma ReleasedKeeps(cfg: Config, w: World, i: nat, uid: string, p: Pass, x: Effect)
    requires Ready(cfg, w, i, uid)
    requires x.Released? && Did(NodeView(cfg, w, i, uid), w.c, w.nodes[i].value, p, x)
    ensures Inv(cfg, Put(w, i, p))
  {
    var w' := Put(w, i, p);
    ReleasedNodes(cfg, w, i, uid, p, x);
    ShrinkKeeps(cfg, w.c, p.c);
    MarksSuccess(cfg, w, w');
    forall k | k in w'.c.jobs ensures JobBacked(cfg, w', k.ns, w'.c.jobs[k]) {
      assert JobBacked(cfg, w, k.ns, w.c.jobs[k]);
      BackedStays(cfg, w, w', i, k);
    }
  }

  // ---------- Passes that create or launch ----------

  /** New volumes of a node never carry the operator's empty node label. */
  lemma VolumeLabels(c: Cluster, kind: bool, e: PvcStatus, l: Labels, pvName: string, pvcName: string)
    ensures var d := EnsureVolume(c, kind, e, l, pvName, pvcName).c;
            && (forall k :: k in d.pvcs && (k !in c.pvcs || d.pvcs[k] != c.pvcs[k]) ==> d.pvcs[k].labels == l)
            && (forall n :: n in d.pvs && (n !in c.pvs || d.pvs[n] != c.pvs[n]) ==> d.pvs[n].labels == l)
  {
  }

  lemma ModifiedObjects(cfg: Config, w: World, i: nat, uid: string, ns: string, e: PvcStatus, m: Managed, move: Move)
    requires Ready(cfg, w, i, uid)
    requires Moved(w.c, NodeView(cfg, w, i, uid), ns, e, m, move)
    ensures Unique(m.c) && Named(cfg, m.c)
    ensures ServingExists(m.c) ==> ServingExists(w.c)
    ensures !move.Launch? ==> Grows(w.c, m.c)
  {
    var v := NodeView(cfg, w, i, uid);
    var l := Labels(ns, v.node);
    if move.Volume? {
      var claim := ClaimName(cfg, e, uid);
      EnsureKeeps(cfg, w.c, cfg.kind, e, l, UniqueName(cfg.cache, uid), claim);
      VolumeLabels(w.c, cfg.kind, e, l, UniqueName(cfg.cache, uid), claim);
    } else if move.Launch? {
      FreshJobName(w.c.log, e.pvcName + "-job-download-", uid);
      AddJobKeeps(cfg, w.c, e.pvcName + "-job-download-" + uid, l, e.pvcName, Agent);
    }
  }

  /** Before a launch no Job of this node and namespace exists, under any claim name. */
  lemma NoJobBeforeLaunch(cfg: Config, w: World, i: nat, uid: string, ns: string, e: PvcStatus, m: Managed)
    requires Ready(cfg, w, i, uid) && !w.cache.deleting
    requires e == EntryOr(NodeView(cfg, w, i, uid), Held(w.nodes[i].value), ns)
    requires Moved(w.c, NodeView(cfg, w, i, uid), ns, e, m, Launch)
    ensures forall k :: k in w.c.jobs && k.ns == ns ==> w.c.jobs[k].node != cfg.nodeNames[i]
  {
    var l := Labels(ns, cfg.nodeNames[i]);
    forall k | k in w.c.jobs && k.ns == ns ensures w.c.jobs[k].node != l.node {
      assert JobBacked(cfg, w, k.ns, w.c.jobs[k]);
      assert JobMatches(w.c.jobs[k], l, e.pvcName) ==> k in MatchingJobs(w.c, l, e.pvcName);
    }
  }

  lemma LaunchedJobs(cfg: Config, w: World, i: nat, uid: string, ns: string, e: PvcStatus, m: Managed)
    requires Ready(cfg, w, i, uid) && !w.cache.deleting
    requires e == EntryOr(NodeView(cfg, w, i, uid), Held(w.nodes[i].value), ns)
    requires Moved(w.c, NodeView(cfg, w, i, uid), ns, e, m, Launch)
    ensures var w' := w.(c := m.c); Owners(w') && OneJobPerNode(w') && SuccessLogged(w'.c)
    ensures HasEntry(w, i, ns) && Entry(w, i, ns).pvcName == e.pvcName
  {
    FreshJobName(w.c.log, e.pvcName + "-job-download-", uid);
    NoJobBeforeLaunch(cfg, w, i, uid, ns, e, m);
    assert ObjKey(ns, e.pvcName + "-job-download-" + uid) !in w.c.jobs;
    AddedJobKeeps(w, e.pvcName + "-job-download-" + uid, Labels(ns, cfg.nodeNames[i]), e.pvcName, Agent);
  }

  lemma ModifiedJobs(cfg: Config, w: World, i: nat, uid: string, ns: string, e: PvcStatus, m: Managed, move: Move)
    requires Ready(cfg, w, i, uid) && !w.cache.deleting
    requires e == EntryOr(NodeView(cfg, w, i, uid), Held(w.nodes[i].value), ns)
    requires Moved(w.c, NodeView(cfg, w, i, uid), ns, e, m, move)
    requires !move.Launch? ==> Grows(w.c, m.c)
    ensures var w' := w.(c := m.c); Owners(w') && OneJobPerNode(w') && SuccessLogged(w'.c) && JobsBacked(cfg, w')
  {
    var w' := w.(c := m.c);
    if move.Launch? {
      LaunchedJobs(cfg, w, i, uid, ns, e, m);
    }
    forall k | k in w'.c.jobs ensures JobBacked(cfg, w', k.ns, w'.c.jobs[k]) {
      if k in w.c.jobs && w.c.jobs[k] == w'.c.jobs[k] {
        assert JobBacked(cfg, w, k.ns, w.c.jobs[k]);
        SameNodesBacked(cfg, w, w', k.ns, w.c.jobs[k]);
      } else {
        assert HasEntry(w', i, k.ns) && Entry(w', i, k.ns).pvcName == w'.c.jobs[k].pvc;
      }
    }
  }

  /** The entry after a move is well shaped, backed, and keeps a claim name once it has one. */
  lemma ModifiedEntry(cfg: Config, w: World, i: nat, uid: string, ns: string, e: PvcStatus, m: Managed, move: Move)
    requires Ready(cfg, w, i, uid) && !w.cache.deleting
    requires w.cache.owner != Unknown && ns in cfg.namespaces
    requires e == EntryOr(NodeView(cfg, w, i, uid), Held(w.nodes[i].value), ns)
    requires Moved(w.c, NodeView(cfg, w, i, uid), ns, e, m, move)
    ensures EntryShape(cfg, w.cache, w.nodes[i].value, ns, m.e)
    ensures EntryBacked(w, cfg.nodeNames[i], ns, m.e)
    ensures w.cache.owner == Agent && e.pvcName != "" ==> m.e.pvcName == e.pvcName
  {
    var nd := w.nodes[i].value;
    assert NodeShape(cfg, w.cache, cfg.nodeNames[i], nd);
    assert NodeBacked(w, cfg.nodeNames[i], nd);
    if ns in Held(nd) {
      assert EntryShape(cfg, w.cache, nd, ns, e);
      assert EntryBacked(w, cfg.nodeNames[i], ns, e);
    }
  }

  /** The cluster change alone keeps everything, which is what a lost status write leaves behind. */
  lemma ClusterModified(cfg: Config, w: World, i: nat, uid: string, ns: string, e: PvcStatus, m: Managed, move: Move)
    requires Ready(cfg, w, i, uid) && !w.cache.deleting
    requires e == EntryOr(NodeView(cfg, w, i, uid), Held(w.nodes[i].value), ns)
    requires Moved(w.c, NodeView(cfg, w, i, uid), ns, e, m, move)
    ensures Inv(cfg, w.(c := m.c))
    ensures m.c.log.succeeded == w.c.log.succeeded
  {
    var mid := w.(c := m.c);
    ModifiedObjects(cfg, w, i, uid, ns, e, m, move);
    ModifiedJobs(cfg, w, i, uid, ns, e, m, move);
    forall j | 0 <= j < |w.nodes| && w.nodes[j].Some? ensures NodeBacked(mid, cfg.nodeNames[j], w.nodes[j].value) {
      assert NodeBacked(w, cfg.nodeNames[j], w.nodes[j].value);
    }
  }

  lemma ModifiedKeeps(cfg: Config, w: World, i: nat, uid: string, p: Pass, x: Effect)
    requires Ready(cfg, w, i, uid)
    requires x.Modified? && Did(NodeView(cfg, w, i, uid), w.c, w.nodes[i].value, p, x)
    ensures Inv(cfg, Put(w, i, p))
  {
    var ns, entries := x.ns, x.entries;
    var v := NodeView(cfg, w, i, uid);
    var nd := w.nodes[i].value;
    var e := EntryOr(v, Held(nd), ns);
    var m := Modify(w.c, v, ns, e);
    var move := ModifyMove(w.c, v, ns, e);
    ClusterModified(cfg, w, i, uid, ns, e, m, move);
    ModifiedEntry(cfg, w, i, uid, ns, e, m, move);
    var mid := w.(c := m.c);
    if p.nd != nd {
      EntryTouched(cfg, w, i, uid, ns, e, entries[ns], m);
      EntryWritten(cfg, mid, i, ns, entries);
    }
    assert w.nodes[i := Some(nd)] == w.nodes;
  }

  /** An in-use flip on top of a move changes nothing that matters. */
  lemma EntryTouched(cfg: Config, w: World, i: nat, uid: string, ns: string, e: PvcStatus, e': PvcStatus, m: Managed)
    requires Ready(cfg, w, i, uid) && !w.cache.deleting
    requires e' == m.e || (m.e == e && Flips(e, e'))
    requires EntryShape(cfg, w.cache, w.nodes[i].value, ns, m.e) && EntryBacked(w, cfg.nodeNames[i], ns, m.e)
    requires m.c.log.succeeded == w.c.log.succeeded
    ensures EntryShape(cfg, w.cache, w.nodes[i].value, ns, e') && EntryBacked(w.(c := m.c), cfg.nodeNames[i], ns, e')
    ensures e'.pvcName == m.e.pvcName
  {
    assert NodeShape(cfg, w.cache, cfg.nodeNames[i], w.nodes[i].value);
  }

  /** The node object with one entry written. */
  ghost function WithEntry(w: World, i: nat, entries: map<string, PvcStatus>): World
    requires i < |w.nodes| && w.nodes[i].Some?
  {
    w.(nodes := w.nodes[i := Some(w.nodes[i].value.(listed := Some(entries)))])
  }

  ghost predicate Writes(cfg: Config, w: World, i: nat, ns: string, entries: map<string, PvcStatus>) {
    && Inv(cfg, w) && i < |w.nodes| && w.nodes[i].Some? && w.nodes[i].value.nodeName != "" && !w.cache.deleting
    && w.cache.owner != Unknown
    && ns in entries && entries == Held(w.nodes[i].value)[ns := entries[ns]]
    && EntryShape(cfg, w.cache, w.nodes[i].value, ns, entries[ns])
    && EntryBacked(w, cfg.nodeNames[i], ns, entries[ns])
    && (w.cache.owner == Agent && ns in Held(w.nodes[i].value) && Held(w.nodes[i].value)[ns].pvcName != "" ==>
          entries[ns].pvcName == Held(w.nodes[i].value)[ns].pvcName)
  }

  lemma WrittenNode(cfg: Config, w: World, i: nat, ns: string, entries: map<string, PvcStatus>)
    requires Writes(cfg, w, i, ns, entries)
    ensures Shape(cfg, WithEntry(w, i, entries)) && Success(cfg, WithEntry(w, i, entries))
  {
    var nd := w.nodes[i].value;
    assert NodeShape(cfg, w.cache, cfg.nodeNames[i], nd) && NodeBacked(w, cfg.nodeNames[i], nd);
    var w' := WithEntry(w, i, entries);
    forall j | 0 <= j < |w'.nodes| && w'.nodes[j].Some?
      ensures NodeShape(cfg, w'.cache, cfg.nodeNames[j], w'.nodes[j].value)
      ensures NodeBacked(w', cfg.nodeNames[j], w'.nodes[j].value)
    {
      if j != i {
        assert NodeBacked(w, cfg.nodeNames[j], w.nodes[j].value);
      }
    }
  }

  lemma WrittenJobs(cfg: Config, w: World, i: nat, ns: string, entries: map<string, PvcStatus>)
    requires Writes(cfg, w, i, ns, entries)
    ensures JobsBacked(cfg, WithEntry(w, i, entries))
  {
    var w' := WithEntry(w, i, entries);
    forall k | k in w.c.jobs ensures JobBacked(cfg, w', k.ns, w.c.jobs[k]) {
      assert JobBacked(cfg, w, k.ns, w.c.jobs[k]);
      if w.c.jobs[k].node != "" {
        var j: nat :| j < |cfg.nodeNames| && cfg.nodeNames[j] == w.c.jobs[k].node
                      && HasEntry(w, j, k.ns) && Entry(w, j, k.ns).pvcName == w.c.jobs[k].pvc;
        assert HasEntry(w', j, k.ns) && Entry(w', j, k.ns).pvcName == w.c.jobs[k].pvc;
      }
    }
  }

  /** Writing one well-shaped, backed entry keeps everything. */
  lemma EntryWritten(cfg: Config, w: World, i: nat, ns: string, entries: map<string, PvcStatus>)
    requires Writes(cfg, w, i, ns, entries)
    ensures Inv(cfg, WithEntry(w, i, entries))
  {
    WrittenNode(cfg, w, i, ns, entries);
    WrittenJobs(cfg, w, i, ns, entries);
  }

  // ---------- Every pass ----------

  /** A node object that lists nothing, before and after, keeps everything. */
  lemma UnlistedKeeps(cfg: Config, w: World, i: nat, nd: Option<CacheNode>)
    requires Inv(cfg, w) && i < |w.nodes|
    requires w.nodes[i].Some? ==> w.nodes[i].value.listed.None?
    requires nd.Some? ==> nd.value.listed.None? && NodeShape(cfg, w.cache, cfg.nodeNames[i], nd.value)
                          && nd.value.counts.nodeInUse + nd.value.counts.nodeNotInUse == 0
    ensures Inv(cfg, w.(nodes := w.nodes[i := nd]))
  {
    var w' := w.(nodes := w.nodes[i := nd]);
    forall j | 0 <= j < |w'.nodes| && w'.nodes[j].Some? ensures NodeBacked(w', cfg.nodeNames[j], w'.nodes[j].value) {
      if j != i {
        assert NodeBacked(w, cfg.nodeNames[j], w.nodes[j].value);
      }
    }
    forall k | k in w'.c.jobs ensures JobBacked(cfg, w', k.ns, w'.c.jobs[k]) {
      assert JobBacked(cfg, w, k.ns, w.c.jobs[k]);
      if w.c.jobs[k].node != "" && !w.cache.deleting {
        var j: nat :| j < |cfg.nodeNames| && cfg.nodeNames[j] == w.c.jobs[k].node
                      && HasEntry(w, j, k.ns) && Entry(w, j, k.ns).pvcName == w.c.jobs[k].pvc;
        assert HasEntry(w', j, k.ns) && Entry(w', j, k.ns).pvcName == w.c.jobs[k].pvc;
      }
    }
  }

  lemma AgentKeeps(cfg: Config, w: World, i: nat, uid: string, writeOk: bool)
    requires Inv(cfg, w) && i < |cfg.nodeNames| && FreshUid(w.c.log, uid)
    ensures Inv(cfg, AgentPass(cfg, w, i, uid, writeOk))
  {
    var (c, nd) := NodePass(cfg, w, i, uid, writeOk);
    if w.cache.gone {
      assert w.nodes[i := w.nodes[i]] == w.nodes;
    } else if w.nodes[i].None? || w.nodes[i].value.nodeName != cfg.nodeNames[i] {
      assert w.nodes[i].Some? ==> NodeShape(cfg, w.cache, cfg.nodeNames[i], w.nodes[i].value);
      UnlistedKeeps(cfg, w, i, nd);
    } else {
      var p := PassBody(NodeView(cfg, w, i, uid), w.c, w.nodes[i].value, writeOk);
      var x := BodyEffect(NodeView(cfg, w, i, uid), w.c, w.nodes[i].value, writeOk);
      assert AgentPass(cfg, w, i, uid, writeOk) == Put(w, i, p);
      if x.Modified? {
        ModifiedKeeps(cfg, w, i, uid, p, x);
      } else if x.Released? {
        ReleasedKeeps(cfg, w, i, uid, p, x);
      } else {
        QuietKeeps(cfg, w, i, uid, p, x);
      }
    }
  }
}
