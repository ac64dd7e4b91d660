/** The status vocabulary shared by the operator and the agents. */
module ApiTypes {

  datatype Option<+T> = None | Some(value: T)

  datatype Condition =
    | Pending
    | Downloading
    | Extracted
    | Running
    | Outdated
    | Deleting
    | Error
    | NoNamespace
    | UnloadError

  datatype PvcOwner = Unknown | Agent | Operator

  datatype AccessMode = ReadWriteOnce | ReadOnlyMany | ReadWriteMany

  /** One namespace entry. The condition list is reset on every change, so it is a single value here. */
  datatype PvcStatus = PvcStatus(pvName: string, pvcName: string, jobName: string, owner: PvcOwner, cond: Condition)

  function NewEntry(owner: PvcOwner): PvcStatus {
    PvcStatus("", "", "", owner, Pending)
  }

  /** Conditions that say the cache was downloaded at some point. */
  predicate DownloadSet(cond: Condition) {
    cond == Extracted || cond == Running || cond == Outdated || cond == Deleting
  }

  datatype CacheCounts = CacheCounts(
    nodeCnt: nat,
    nodeInUse: nat,
    nodeNotInUse: nat,
    nodeError: nat,
    podRunning: nat,
    podDeleting: nat,
    podOutdated: nat)
  {
    function Plus(that: CacheCounts): CacheCounts {
      CacheCounts(
        nodeCnt + that.nodeCnt,
        nodeInUse + that.nodeInUse,
        nodeNotInUse + that.nodeNotInUse,
        nodeError + that.nodeError,
        podRunning + that.podRunning,
        podDeleting + that.podDeleting,
        podOutdated + that.podOutdated)
    }
  }

  const ZERO_COUNTS := CacheCounts(0, 0, 0, 0, 0, 0, 0)

  function DetermineOwner(modes: seq<AccessMode>): (owner: PvcOwner)
    ensures owner == Operator <==> ReadOnlyMany in modes
    ensures owner == Agent || owner == Operator
  {
    if ReadOnlyMany in modes then Operator else Agent
  }
}
