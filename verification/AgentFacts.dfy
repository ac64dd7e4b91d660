/** What one agent pass can change: at most one entry and the one object that goes with it. */
module AgentFacts {
  import opened ApiTypes
  import opened Kube
  import opened Fleet
  import opened AgentSpec

  function EntryOr(v: View, entries: map<string, PvcStatus>, ns: string): PvcStatus {
    if ns in entries then entries[ns] else NewEntry(v.owner)
  }

  lemma ModifyIdle(c: Cluster, v: View, ns: string, e: PvcStatus)
    ensures var m := Modify(c, v, ns, e); (m.err ==> m.c == c) && (!m.err && !m.updated ==> m.c == c && m.e == e)
  {
  }

  /** The flip between in use and not in use. */
  predicate Flips(e: PvcStatus, e': PvcStatus) {
    (e.cond == Extracted && e' == e.(cond := Running)) || (e.cond == Running && e' == e.(cond := Extracted))
  }

  /** One step of the non-deleting branch on the entry of `ns`. */
  ghost predicate Touches(v: View, c: Cluster, entries: map<string, PvcStatus>, c': Cluster, entries': map<string, PvcStatus>, ns: string) {
    && ns in v.cfg.namespaces
    && ns in entries'
    && entries' == entries[ns := entries'[ns]]
    && var e := EntryOr(v, entries, ns);
       var m := Modify(c, v, ns, e);
       !m.err && c' == m.c
       && (entries'[ns] == m.e || (ns in entries && m.c == c && m.e == e && Flips(e, entries'[ns])))
  }

  ghost predicate Same(s: Loop, r: Loop) {
    r.c == s.c && r.entries == s.entries
  }

  lemma {:induction false} ModifyLoop(v: View, s: Loop, k: nat) returns (ns: string)
    requires k <= |v.cfg.namespaces|
    ensures var r := ModifyFrom(v, s, k);
            (Same(s, r) || (r.updated && Touches(v, s.c, s.entries, r.c, r.entries, ns))) && (s.updated ==> r.updated)
    decreases |v.cfg.namespaces| - k
  {
    ns := "";
    if k < |v.cfg.namespaces| {
      ns := v.cfg.namespaces[k];
      var e := EntryOr(v, s.entries, ns);
      var m := Modify(s.c, v, ns, e);
      ModifyIdle(s.c, v, ns, e);
      var s' := s.(c := m.c, updated := s.updated || ns !in s.entries);
      if m.err {
        ns := ModifyLoop(v, s', k + 1);
      } else if !s'.updated && !m.updated {
        var a := AddCounts(m.c, v, ns, m.e, s.cnts);
        if !a.updated {
          ns := ModifyLoop(v, s'.(cnts := a.cnts), k + 1);
        }
      }
    }
  }

  /** One step of the deleting branch on the entry of `ns`: it is changed, or dropped. */
  ghost predicate Releases(v: View, c: Cluster, entries: map<string, PvcStatus>, c': Cluster, entries': map<string, PvcStatus>, ns: string) {
    && ns in v.cfg.namespaces
    && ns in entries
    && var d := Release(c, v, entries, ns);
       !d.err && c' == d.c
       && ((d.updated && entries' == entries[ns := d.e])
           || (!d.updated && !d.held && c' == c && entries' == entries - {ns}))
  }

  lemma ReleaseIdle(c: Cluster, v: View, entries: map<string, PvcStatus>, ns: string)
    requires ns in entries
    ensures var d := Release(c, v, entries, ns);
            !d.updated ==> d.c == c && d.e == entries[ns] && (d.held ==> d.e.cond == Deleting)
    ensures var d := Release(c, v, entries, ns); d.err ==> !d.updated
  {
    ManageDeleteQuiet(c, entries[ns], Agent, DeleteScope(v, entries, ns));
  }

  /** Every entry from position k on could not be released and says so. */
  ghost predicate AllHeld(v: View, s: Loop, k: nat)
    requires k <= |v.cfg.namespaces|
  {
    forall j :: k <= j < |v.cfg.namespaces| && v.cfg.namespaces[j] in s.entries ==>
                  var d := Release(s.c, v, s.entries, v.cfg.namespaces[j]);
                  d.err || s.entries[v.cfg.namespaces[j]].cond == Deleting
  }

  ghost predicate NoneLeft(v: View, s: Loop, k: nat)
    requires k <= |v.cfg.namespaces|
  {
    forall j :: k <= j < |v.cfg.namespaces| && v.cfg.namespaces[j] in s.entries ==>
                  Release(s.c, v, s.entries, v.cfg.namespaces[j]).err
  }

  lemma {:induction false} ReleaseLoop(v: View, s: Loop, k: nat) returns (ns: string)
    requires k <= |v.cfg.namespaces|
    requires !s.updated
    ensures var r := ReleaseFrom(v, s, k);
            (Same(s, r) && !r.updated && AllHeld(v, s, k) && (r.inUse || NoneLeft(v, s, k)) && (s.inUse ==> r.inUse))
            || (r.updated && Releases(v, s.c, s.entries, r.c, r.entries, ns))
    decreases |v.cfg.namespaces| - k
  {
    ns := "";
    if k < |v.cfg.namespaces| {
      ns := v.cfg.namespaces[k];
      if ns !in s.entries {
        ns := ReleaseLoop(v, s, k + 1);
      } else {
        ReleaseIdle(s.c, v, s.entries, ns);
        var d := Release(s.c, v, s.entries, ns);
        var s' := s.(c := d.c, updated := d.updated, inUse := s.inUse || d.held);
        if d.err {
          ns := ReleaseLoop(v, s', k + 1);
        } else if !d.updated && d.held {
          var a := AddCounts(d.c, v, ns, d.e, s.cnts);
          ns := ReleaseLoop(v, s'.(cnts := a.cnts), k + 1);
        }
      }
    }
  }

  /** What the counts of a pass may be, given the entries they were counted over. */
  ghost predicate CountsFit(v: View, entries: map<string, PvcStatus>, cnts: CacheCounts) {
    && cnts.nodeCnt <= 1
    && cnts.nodeInUse + cnts.nodeNotInUse <= 1
    && (cnts.nodeCnt == 0 ==> !v.finalizer)
    && (cnts.nodeInUse + cnts.nodeNotInUse > 0 ==>
          exists ns :: ns in entries && ns in v.cfg.namespaces && entries[ns].cond in {Extracted, Running, Deleting})
  }

  lemma AddCountsFit(c: Cluster, v: View, ns: string, entries: map<string, PvcStatus>, cnts: CacheCounts)
    requires ns in entries && ns in v.cfg.namespaces
    requires CountsFit(v, entries, cnts)
    ensures CountsFit(v, entries, AddCounts(c, v, ns, entries[ns], cnts).cnts)
  {
  }

  lemma {:induction false} LoopCountsFit(v: View, s: Loop)
    requires CountsFit(v, s.entries, s.cnts)
    requires v.deleting ==> !s.updated
    ensures !RunLoop(v, s).updated ==> CountsFit(v, s.entries, RunLoop(v, s).cnts)
  {
    if v.deleting {
      ReleaseCountsFit(v, s, 0);
    } else {
      ModifyCountsFit(v, s, 0);
    }
  }

  lemma {:induction false} ModifyCountsFit(v: View, s: Loop, k: nat)
    requires k <= |v.cfg.namespaces|
    requires CountsFit(v, s.entries, s.cnts)
    ensures !ModifyFrom(v, s, k).updated ==> CountsFit(v, s.entries, ModifyFrom(v, s, k).cnts)
    decreases |v.cfg.namespaces| - k
  {
    if k < |v.cfg.namespaces| {
      var ns := v.cfg.namespaces[k];
      var e := EntryOr(v, s.entries, ns);
      var m := Modify(s.c, v, ns, e);
      ModifyIdle(s.c, v, ns, e);
      var s' := s.(c := m.c, updated := s.updated || ns !in s.entries);
      if m.err {
        ModifyCountsFit(v, s', k + 1);
      } else if !s'.updated && !m.updated {
        var a := AddCounts(m.c, v, ns, m.e, s.cnts);
        AddCountsFit(m.c, v, ns, s.entries, s.cnts);
        if !a.updated {
          ModifyCountsFit(v, s'.(cnts := a.cnts), k + 1);
        }
      }
    }
  }

  lemma {:induction false} ReleaseCountsFit(v: View, s: Loop, k: nat)
    requires k <= |v.cfg.namespaces|
    requires !s.updated && CountsFit(v, s.entries, s.cnts)
    ensures !ReleaseFrom(v, s, k).updated ==> CountsFit(v, s.entries, ReleaseFrom(v, s, k).cnts)
    decreases |v.cfg.namespaces| - k
  {
    if k < |v.cfg.namespaces| {
      var ns := v.cfg.namespaces[k];
      if ns !in s.entries {
        ReleaseCountsFit(v, s, k + 1);
      } else {
        ReleaseIdle(s.c, v, s.entries, ns);
        var d := Release(s.c, v, s.entries, ns);
        var s' := s.(c := d.c, updated := d.updated, inUse := s.inUse || d.held);
        if d.err {
          ReleaseCountsFit(v, s', k + 1);
        } else if !d.updated && d.held {
          var a := AddCounts(d.c, v, ns, d.e, s.cnts);
          AddCountsFit(d.c, v, ns, s.entries, s.cnts);
          ReleaseCountsFit(v, s'.(cnts := a.cnts), k + 1);
        }
      }
    }
  }

  // ---------- The whole pass ----------

  datatype Effect =
    | Nothing
    | Unfinalized
    | Forgotten
    | Counted
    | Listed
    | Modified(ns: string, entries: map<string, PvcStatus>)
    | Released(ns: string, entries: map<string, PvcStatus>)

  ghost function Held(nd: CacheNode): map<string, PvcStatus> {
    if nd.listed.Some? then nd.listed.value else map[]
  }

  /** All that the body of a pass can do to the cluster and to the node object; a lost write leaves the object alone. */
  ghost predicate Did(v: View, c: Cluster, nd: CacheNode, p: Pass, x: Effect) {
    var start := StartLoop(c, nd.listed);
    match x
    case Nothing => p == Pass(c, nd)
    case Unfinalized =>
      && v.deleting && p == Pass(c, nd.(finalizer := false))
      && (nd.listed.None? || v.owner == Unknown || AllHeld(v, start, 0))
    case Forgotten => v.deleting && nd.listed.Some? && NoneLeft(v, start, 0) && p == Pass(c, nd.(listed := None))
    case Counted =>
      && nd.listed.Some? && p == Pass(c, nd.(counts := p.nd.counts)) && v.owner != Unknown
      && CountsFit(v, nd.listed.value, p.nd.counts)
    case Listed => !v.deleting && v.owner != Unknown && nd.listed.None? && p == Pass(c, nd.(listed := Some(map[])))
    case Modified(ns, entries) =>
      && !v.deleting && v.owner != Unknown && Touches(v, c, Held(nd), p.c, entries, ns)
      && (p.nd == nd || p.nd == nd.(listed := Some(entries)))
    case Released(ns, entries) =>
      && v.deleting && v.owner != Unknown && nd.listed.Some? && Releases(v, c, nd.listed.value, p.c, entries, ns)
      && (p.nd == nd || p.nd == nd.(listed := Some(entries)))
  }

  lemma BodyEffect(v: View, c: Cluster, nd: CacheNode, writeOk: bool) returns (x: Effect)
    ensures Did(v, c, nd, PassBody(v, c, nd, writeOk), x)
  {
    var start := StartLoop(c, nd.listed);
    x := Nothing;
    if v.owner == Unknown || (v.deleting && nd.listed.None?) {
      if v.deleting {
        x := Unfinalized;
      }
    } else {
      var r := RunLoop(v, start);
      var ns: string;
      if v.deleting {
        ns := ReleaseLoop(v, start, 0);
      } else {
        ns := ModifyLoop(v, start, 0);
      }
      LoopCountsFit(v, start);
      x := LoopEffect(v, c, nd, writeOk, ns);
    }
  }

  lemma LoopEffect(v: View, c: Cluster, nd: CacheNode, writeOk: bool, ns: string) returns (x: Effect)
    requires v.owner != Unknown && !(v.deleting && nd.listed.None?)
    requires var s := StartLoop(c, nd.listed);
             var r := RunLoop(v, s);
             && (!r.updated ==> CountsFit(v, s.entries, r.cnts))
             && if v.deleting then
                  (Same(s, r) && !r.updated && AllHeld(v, s, 0) && (r.inUse || NoneLeft(v, s, 0)))
                  || (r.updated && Releases(v, s.c, s.entries, r.c, r.entries, ns))
                else
                  (Same(s, r) || (r.updated && Touches(v, s.c, s.entries, r.c, r.entries, ns))) && (s.updated ==> r.updated)
    ensures Did(v, c, nd, PassBody(v, c, nd, writeOk), x)
  {
    var r := RunLoop(v, StartLoop(c, nd.listed));
    x := Nothing;
    if r.updated {
      if v.deleting {
        x := Released(ns, r.entries);
      } else if Same(StartLoop(c, nd.listed), r) {
        if nd.listed.None? && writeOk {
          x := Listed;
        }
      } else {
        x := Modified(ns, r.entries);
      }
    } else if r.cnts != nd.counts {
      if writeOk {
        x := Effect.Counted;
      }
    } else if v.deleting {
      x := if r.inUse || nd.listed.None? then Unfinalized else if writeOk then Forgotten else Nothing;
    }
  }
}
