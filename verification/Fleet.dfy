/** The whole cluster as the two controllers see it: API objects, the cache object, one cache-node object per node. */
module Fleet {
  import opened ApiTypes
  import opened Kube

  datatype Config = Config(cache: string, namespaces: seq<string>, kind: bool, nodeNames: seq<string>)

  ghost predicate ValidConfig(cfg: Config) {
    && (forall i :: 0 <= i < |cfg.nodeNames| ==> cfg.nodeNames[i] != "")
    && (forall i, j :: 0 <= i < j < |cfg.nodeNames| ==> cfg.nodeNames[i] != cfg.nodeNames[j])
    && cfg.cache != ""
  }

  /** All workload namespaces are one and the same, or there are none. */
  ghost predicate OneSpace(cfg: Config) {
    forall a, b :: a in cfg.namespaces && b in cfg.namespaces ==> a == b
  }

  datatype CacheObj = CacheObj(
    gone: bool,
    finalizer: bool,
    deleting: bool,
    modes: seq<AccessMode>,
    owner: PvcOwner,
    counts: CacheCounts,
    cond: Option<Condition>,
    entries: map<string, PvcStatus>)

  /** `listed` holds the entries kept for the cache; None when the node object does not list the cache. */
  datatype CacheNode = CacheNode(
    finalizer: bool,
    nodeName: string,
    counts: CacheCounts,
    listed: Option<map<string, PvcStatus>>)

  datatype World = World(c: Cluster, cache: CacheObj, nodes: seq<Option<CacheNode>>)

  function UniqueName(cache: string, uid: string): (name: string)
    ensures name != "" && name != cache && |name| >= |uid|
  {
    cache + "-" + uid
  }

  ghost predicate EndsWith(s: string, tail: string) {
    |tail| <= |s| && s[|s| - |tail|..] == tail
  }

  /** No generated name so far ends in this random suffix. */
  ghost predicate FreshUid(log: Log, uid: string) {
    uid != "" && forall n :: n in log.names ==> !EndsWith(n, uid)
  }
}
