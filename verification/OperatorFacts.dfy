/** What one operator pass can change: at most one entry and the one object that goes with it. */
module OperatorFacts {
  import opened ApiTypes
  import opened Kube
  import opened Fleet
  import opened OperatorSpec

  function EntryOr(entries: map<string, PvcStatus>, ns: string): PvcStatus {
    if ns in entries then entries[ns] else NewEntry(Operator)
  }

  ghost predicate Steady(c: Cluster, e: PvcStatus, m: Managed) {
    (m.err ==> m.c == c) && (!m.err && !m.updated ==> m.c == c && m.e == e)
  }

  lemma EnsureIdle(c: Cluster, kind: bool, e: PvcStatus, l: Labels, pvName: string, pvcName: string)
    ensures var m := EnsureVolume(c, kind, e, l, pvName, pvcName);
            Steady(c, e, m) && (!m.updated ==> m.c == c)
  {
  }

  lemma VolumeIdle(c: Cluster, v: View, ns: string, e: PvcStatus)
    ensures Steady(c, e, ManageVolume(c, v, ns, e))
    ensures var m := ManageVolume(c, v, ns, e); !m.updated ==> m.c == c
  {
    if e.cond == Pending || (e.cond == NoNamespace && ns in c.spaces) {
      var e' := if e.cond == NoNamespace then e.(cond := Pending) else e;
      EnsureIdle(c, v.cfg.kind, e', Labels(ns, ""), UniqueName(v.cfg.cache, v.uid), v.cfg.cache);
    }
  }

  lemma JobIdle(c: Cluster, v: View, ns: string, e: PvcStatus)
    ensures Steady(c, e, ManageJob(c, v, ns, e))
  {
  }

  lemma ModifyIdle(c: Cluster, v: View, ns: string, e: PvcStatus)
    ensures Steady(c, e, Modify(c, v, ns, e))
  {
    VolumeIdle(c, v, ns, e);
    JobIdle(c, v, ns, e);
  }

  // ---------- What the conditions mean ----------

  /** The conditions that the counts of the nodes ask for. */
  function AskedFor(cnts: CacheCounts): set<Condition> {
    (if cnts.nodeError != 0 then {Error} else {})
    + (if cnts.podOutdated != 0 then {Outdated} else {})
    + (if cnts.nodeInUse != 0 then {Running} else {})
    + (if cnts.nodeNotInUse != 0 then {Extracted} else {})
  }

  function Severity(cond: Condition): nat {
    match cond
    case Error => 4
    case Outdated => 3
    case Running => 2
    case Extracted => 1
    case _ => 0
  }

  /** The condition of the cache is the most severe one that is asked for, and stays when none is. */
  lemma ConditionIsSeverest(cond: Option<Condition>, cnts: CacheCounts)
    ensures var r := CacheCondition(cond, cnts);
            if AskedFor(cnts) == {} then r == cond
            else r.Some? && r.value in AskedFor(cnts) && forall d :: d in AskedFor(cnts) ==> Severity(d) <= Severity(r.value)
  {
    assert cnts.nodeError != 0 ==> Error in AskedFor(cnts);
    assert cnts.podOutdated != 0 ==> Outdated in AskedFor(cnts);
    assert cnts.nodeInUse != 0 ==> Running in AskedFor(cnts);
    assert cnts.nodeNotInUse != 0 ==> Extracted in AskedFor(cnts);
  }

  /**
   * A served entry follows its namespace as the cache follows all nodes: it keeps its names and takes the condition that
   * the counts call for, and a write is asked for exactly when that changes it. The exception is a node error, for which
   * an entry that does not say Error is set to Extracted, with a write even if it said so before.
   */
  lemma SummaryFollowsCounts(e: PvcStatus, cnts: CacheCounts)
    ensures var (e', updated) := Summarize(e, cnts);
            && e' == e.(cond := e'.cond)
            && (cnts.nodeError == 0 ==> Some(e'.cond) == CacheCondition(Some(e.cond), cnts) && (updated <==> e'.cond != e.cond))
            && (cnts.nodeError != 0 ==> (updated <==> e.cond != Error) && (updated ==> e'.cond == Extracted))
  {
  }

  ghost predicate Touches(v: View, c: Cluster, entries: map<string, PvcStatus>, c': Cluster, entries': map<string, PvcStatus>, ns: string) {
    && !v.deleting
    && ns in v.cfg.namespaces
    && var m := Modify(c, v, ns, EntryOr(entries, ns));
       !m.err && c' == m.c && entries' == entries[ns := m.e]
  }

  ghost predicate Releases(v: View, c: Cluster, entries: map<string, PvcStatus>, c': Cluster, entries': map<string, PvcStatus>, ns: string) {
    && ns in v.cfg.namespaces
    && ns in entries
    && var r := ManageDelete(c, entries[ns], Operator, Labels(ns, ""));
       !r.err && c' == r.c
       && (if r.inUse || r.deleting then entries' == entries[ns := r.e.(cond := Deleting)]
           else if r.updated then entries' == entries[ns := r.e]
           else entries' == entries - {ns})
  }

  ghost predicate Same(s: Loop, r: Loop) {
    r.c == s.c && r.entries == s.entries
  }

  lemma {:induction false} LoopChanges(v: View, s: Loop, k: nat) returns (ns: string)
    requires k <= |v.cfg.namespaces|
    ensures var r := LoopFrom(v, s, k);
            || Same(s, r)
            || (r.updated && Touches(v, s.c, s.entries, r.c, r.entries, ns))
            || (r.updated && Releases(v, s.c, s.entries, r.c, r.entries, ns))
    decreases |v.cfg.namespaces| - k
  {
    ns := "";
    if k < |v.cfg.namespaces| {
      ns := v.cfg.namespaces[k];
      if !v.deleting && !(ns in s.c.spaces && s.c.spaces[ns]) {
        var e := EntryOr(s.entries, ns);
        var m := Modify(s.c, v, ns, e);
        ModifyIdle(s.c, v, ns, e);
        var s' := s.(c := m.c, updated := s.updated || ns !in s.entries);
        if m.err || (!s'.updated && !m.updated) {
          ns := LoopChanges(v, s', k + 1);
        }
      } else if ns !in s.entries {
        ns := LoopChanges(v, s, k + 1);
      } else {
        var r := ManageDelete(s.c, s.entries[ns], Operator, Labels(ns, ""));
        ManageDeleteQuiet(s.c, s.entries[ns], Operator, Labels(ns, ""));
        var s' := s.(c := r.c, pvcDeleting := r.deleting);
        if r.err {
          ns := LoopChanges(v, s'.(updated := r.updated), k + 1);
        } else if (r.inUse || r.deleting) && !r.updated && r.e.cond == Deleting {
          ns := LoopChanges(v, s'.(updated := false), k + 1);
        }
      }
    }
  }

  datatype Effect =
    | Nothing
    | Finalized
    | Recorded
    | Removed
    | Modified(ns: string, entries: map<string, PvcStatus>)
    | Released(ns: string, entries: map<string, PvcStatus>)

  /** The status a pass may write for the given entries; counts and condition summarize the nodes. */
  ghost predicate Written(w: World, entries: map<string, PvcStatus>, cache: CacheObj) {
    var st := StartStatus(w);
    cache == st.(entries := entries, counts := cache.counts, cond := cache.cond)
  }

  /** All that an operator pass can do; a lost write leaves the cache object alone. */
  ghost predicate Did(cfg: Config, w: World, uid: string, w': World, x: Effect) {
    var st := StartStatus(w);
    var v := PassView(cfg, w, st, uid);
    match x
    case Nothing => w' == w
    case Finalized => !w.cache.gone && !w.cache.deleting && w' == w.(cache := w.cache.(finalizer := true))
    case Recorded => !w.cache.gone && w' == w.(cache := w'.cache) && Written(w, w.cache.entries, w'.cache)
    case Removed =>
      && !w.cache.gone && w.cache.deleting && Collected(w).nodeCnt == 0 && w.cache.owner != Unknown
      && w' == w.(cache := w.cache.(finalizer := false, gone := true))
    case Modified(ns, entries) =>
      && !w.cache.gone && Touches(v, w.c, w.cache.entries, w'.c, entries, ns)
      && w' == w.(c := w'.c, cache := w'.cache) && (w'.cache == w.cache || Written(w, entries, w'.cache))
    case Released(ns, entries) =>
      && !w.cache.gone && Releases(v, w.c, w.cache.entries, w'.c, entries, ns)
      && w' == w.(c := w'.c, cache := w'.cache) && (w'.cache == w.cache || Written(w, entries, w'.cache))
  }

  lemma PassEffect(cfg: Config, w: World, uid: string, writeOk: bool) returns (x: Effect)
    ensures Did(cfg, w, uid, OperatorPass(cfg, w, uid, writeOk), x)
  {
    x := Nothing;
    if w.cache.gone {
    } else if !w.cache.deleting && !w.cache.finalizer {
      x := Finalized;
    } else {
      var st := StartStatus(w);
      var v := PassView(cfg, w, st, uid);
      var start := Loop(w.c, st.entries, false, false);
      var ns := LoopChanges(v, start, 0);
      x := LoopEffect(cfg, w, uid, writeOk, ns);
    }
  }

  lemma LoopEffect(cfg: Config, w: World, uid: string, writeOk: bool, ns: string) returns (x: Effect)
    requires !w.cache.gone && (w.cache.deleting || w.cache.finalizer)
    requires var st := StartStatus(w);
             var v := PassView(cfg, w, st, uid);
             var s := Loop(w.c, st.entries, false, false);
             var r := LoopFrom(v, s, 0);
             || Same(s, r)
             || (r.updated && Touches(v, s.c, s.entries, r.c, r.entries, ns))
             || (r.updated && Releases(v, s.c, s.entries, r.c, r.entries, ns))
    ensures Did(cfg, w, uid, OperatorPass(cfg, w, uid, writeOk), x)
  {
    var st := StartStatus(w);
    var v := PassView(cfg, w, st, uid);
    var r := LoopFrom(v, Loop(w.c, st.entries, false, false), 0);
    x := Nothing;
    if r.updated {
      if Touches(v, w.c, w.cache.entries, r.c, r.entries, ns) {
        x := Modified(ns, r.entries);
      } else if Releases(v, w.c, w.cache.entries, r.c, r.entries, ns) {
        x := Released(ns, r.entries);
      } else if writeOk {
        x := Recorded;
      }
    } else if Finished(w, st) != w.cache {
      x := if writeOk then Recorded else Nothing;
    } else if w.cache.deleting && Finished(w, st).counts.nodeCnt == 0 && !r.pvcDeleting {
      x := Removed;
    }
  }
}
