# GKM, modelled and proved

GKM distributes GPU kernel caches to the nodes of a Kubernetes cluster. An operator and one agent per node share API
objects (cache, cache-node objects, PVs, PVCs, Jobs, Pods) and coordinate only through status fields, label queries and
finalizers. Extract Jobs unpack a cache image into a volume that several Jobs may share. A command-line tool packs and
unpacks cache images, probes GPUs and checks whether a cache fits them. A webhook admits cluster-wide caches.

This project models that behaviour in Dafny and proves what it is for. `dafny verify dfyconfig.toml` checks everything.

## How the parts fit together

**The operator/agent protocol.** `Kube`, `Fleet`, `AgentSpec` and `OperatorSpec` say what one reconcile pass does, as
functions of the cluster state. `ApiServer`, `AgentController` and `OperatorController` are the passes as they run: classes
whose methods change the API objects, the entry at hand and the stored objects in place, loops included; every method is
proved to produce exactly the state its specification function gives. `Protocol` interleaves passes with everything the
cluster may do on its own: Jobs progress in any way, pods and namespaces come and go, objects start terminating or vanish,
the user deletes the cache or edits its access modes, and any status write may be lost. A run is any sequence of such steps
from a fresh cluster, with any number of nodes and any list of namespaces.

`Invariants`, `AgentFacts`, `AgentMoves`, `OperatorFacts`, `ObjectProofs`, `AgentProofs`, `OperatorProofs` and `RunProofs`
prove the main invariant; `Linkage` and `LinkProofs` a second one about recorded names. The results are in `Theorems`
(ownership, uniqueness, serving safety, deletion handshake), `Teardown` (order, use safety, nothing left behind),
`DeletionMeasure` and `DeletionEnds` (deletion terminates, for one entry and for all controllers together), `DeletionRest` and
`DeletionCompletes` (what a controller at rest leaves, and that a deletion gets done), `Counts` and `NodeCounts` (what nodes
report, and what the operator makes of it), `Convergence` and `Copying` (when an agent settles that extracts itself, or that
copies what the operator publishes) and `OperatorRest` (when the operator settles). `Settling` holds what these share.
`TwoNamespaces` builds, for every configuration with two different namespaces, the runs in which teardown goes wrong;
`TeardownExactly` turns them into exact conditions. `Counterexamples` is a run that starts serving too early.

**Extraction.** `Extract` models processes over a directory of inodes, one system call a step, with a crash possible between
any two steps and with the sorted order of directory listings. `ExtractProofs` proves mutual exclusion, the truth of the
sentinel and extraction at most once; `ExtractUnsafe` builds, for any two images, the run that breaks the sentinel when an
image brings something listed before it, so that the condition is exact. `ExtractClears` says what a clearing and a success
leave in the directory. `ExtractMain` is one extractor as it runs; its methods are proved to take only steps of the protocol,
so crash safety holds in every state the program goes through.

**Cache images.** `Paths`, `Pack`, `PackProofs`, `PackReports` and `PackMain`: a printer and a parser over directory trees,
and what unpacking reports.

**Devices and summaries.** `Decimal`, `Splitting`, `Names` and `Sums` are shared helpers. `GpuFleet`, `Devices` and
`DeviceMain` treat the fleet summary, the device cache file and start-up; `TargetSummary` and `Preflight` the summary label
and the two checks.

**Admission.** `Admission`: the history of one cluster cache, with a signature abstracted as an injective function.

## What the model assumes

Passes are atomic and read current state. There is one cache and one digest, so the labels of a cache's objects reduce to
namespace and node (the operator writes an empty node label), and there is one cache per cache-node object. The list of
namespaces is fixed. API reads succeed; a create fails when the name is taken or when its namespace is missing or
terminating; a status write may be refused. Generated names carry a random suffix that no earlier generated name ends in. The
cluster on its own never creates objects with this cache's labels, and a success is reported by a Job that shows it. Objects
have non-empty names. The condition list of an entry is reset on every change, so an entry has one condition. A cache that
has gone is not created again.

## Where the code and its documentation disagree

The model follows the code.

- The comments in the webhook (api/v1alpha1/clustergkmcache_webhook.go:50-56, 103, 137 and 185) bind the signature to the
  admission request; the code signs and verifies with an empty request id, so a signature is bound to image and digest only and can be
  brought along again: `Admission.SignatureIsReplayable`, and `Admission.UnsignedCreateExactlyWhen` and
  `Admission.UnsignedUpdateExactlyWhen` for exactly when. Because of the early return for an unchanged digest, an update that
  moves to another image with the same digest and keeps the annotations is turned away, unless the stored signature is the
  one for the new image: `Admission.RetagAdmittedExactlyWhen`. It can be that one, since an update that keeps image and digest
  may bring any signature: `Admission.SignatureCanBeSwapped`.
- With more than one namespace the agent blanks the node name during teardown so that pods on other nodes keep a claim
  (internal/controller/gkm-agent/common.go:444-450). The blank name is also used to look objects up by label, where it stands
  for the operator's own objects. So with two different namespaces an agent can delete the operator's claim, delete its own
  claim while the Job that extracts into it runs, delete a PV before its claim, and drop an entry whose claim is still there:
  the four lemmas of `TeardownExactly`.
- Serving is meant to start only after an extraction (internal/controller/gkm-operator/common.go:621). It can start earlier
  in one case, when the first status write is lost and the access modes are then edited to call for another owner:
  `Counterexamples.ServingAfterEdit`. `Theorems.ServingSafeExactlyWhen` says when it is safe.
- While a node reports an error, the operator sets a served entry to Extracted although the log text says Error, and writes it
  again in every pass: `OperatorFacts.SummaryFollowsCounts` and `OperatorRest.TroubleWrites`.
- A namespace in which an agent cannot create a claim gets no entry, but the pass counts as an update all the same and writes
  the node status every time (internal/controller/gkm-agent/common.go:398-425): `Convergence.SettlesExactlyWhen`.
- The operator waits for claims that are still being removed (internal/controller/gkm-operator/common.go:258-260), but every
  entry of the loop sets the flag anew, so only the last one decides: `DeletionRest.LetsGoExactlyWhen`.
- In a terminating namespace the operator clears the claim name of an entry when it deletes the claim, and sets the condition
  to Deleting in the next attempt: `OperatorRest.NameGoesFirst`. From such an entry an agent copies the empty name again in
  every pass, and the namespaces behind it in the list wait: `Copying.SettlesExactlyWhen`.
- A changed URL is meant to clear the directory so that no stale file is reused (gkm-extract/main.go:82-87). What an
  extraction that failed or crashed has written is not cleared, because no sentinel is there, and stays beside the next image:
  `ExtractClears.PureExactlyWhenSameFiles`.

## Model

| member | source | states |
|---|---|---|
| Theorems.ServingSafety | internal/controller/gkm-operator/common.go:621-746 | over every run with any writes lost: an Agent-owned cache has an operator volume only if an extract Job that an agent launched on one of the nodes showed success at an earlier step of the run |
| Theorems.ServingSafeExactlyWhen | internal/controller/gkm-operator/common.go:221-247 | in every run, with any edits and lost writes, serving is backed by a reported success in all states after the agents are recorded as owners if and only if no operator volume existed when they were recorded |
| Theorems.ConditionsAreTrue | internal/controller/gkm-agent/common.go:1065-1105 | in every reachable state an entry in condition Extracted, Running or Outdated goes back to an earlier state in which the Job that feeds it showed success |
| Theorems.SuccessHasJob | internal/controller/gkm-agent/common.go:1076-1083 | every logged success was shown by a Job with these labels, in a step of the cluster |
| Theorems.OwnerIsFinal | internal/controller/gkm-operator/common.go:241-247 | along every run the recorded owner never changes once it is known |
| Theorems.OwnerIsDecided | internal/controller/gkm-operator/common.go:1267-1275 | along every run the owner becomes known in an operator pass, and is the operator if and only if one of the access modes at that moment is ReadOnlyMany |
| Theorems.ConditionIsKnown | internal/controller/gkm-operator/common.go:241-247 | in every state of every run the cache has a condition if and only if its owner is known |
| Theorems.OneSideLaunches | internal/controller/gkm-agent/common.go:957-1008 | over a whole run all extract Jobs are launched by one side only, and that side is the recorded owner |
| Theorems.ObjectsAreUnique | pkg/common/k8s.go:290-368 | in every reachable state at most one PV, PVC and extract Job per label tuple exists, so no lookup is ambiguous |
| Theorems.DeletionHandshake | internal/controller/gkm-operator/common.go:483-503 | whenever the operator lets a cache go, every node object that still lists it has given up its finalizer and holds only entries in condition Deleting |
| RunProofs.StepKeeps | internal/controller/gkm-agent/common.go:152-641 | every step of agents, operator, cluster and user keeps the main invariant, with or without its status write |
| RunProofs.RunInv | internal/controller/gkm-operator/common.go:146-522 | the main invariant holds in every state of every run |
| AgentProofs.AgentKeeps | internal/controller/gkm-agent/common.go:152-641 | every agent pass keeps the main invariant |
| OperatorProofs.OperatorKeeps | internal/controller/gkm-operator/common.go:146-522 | every operator pass keeps the main invariant |
| OperatorProofs.HoldOffMeans | internal/controller/gkm-operator/common.go:621-626 | the hold-off on the serving volume is lifted only when some node's extract Job has reported success |
| AgentProofs.NoJobBeforeLaunch | pkg/common/k8s.go:956-967 | when an agent launches, no Job of its node and namespace exists, under whatever claim name |
| AgentFacts.BodyEffect | internal/controller/gkm-agent/common.go:382-602 | a pass of an agent changes at most one entry and the one object that goes with it, and a lost write leaves the node object alone |
| OperatorFacts.PassEffect | internal/controller/gkm-operator/common.go:296-503 | a pass of the operator changes at most one entry and the one object that goes with it, and a lost write leaves the cache object alone |
| AgentMoves.ModifyMove | internal/controller/gkm-agent/common.go:743-1130 | a non-deleting pass makes one of six kinds of move on an entry, each with its cause in the cluster |
| AgentMoves.ClaimIsNamed | internal/controller/gkm-agent/common.go:884-913 | a claim that an agent creates carries its labels and the name of the PV of the entry, or a fresh name if there is none |
| LinkProofs.RunGood | internal/controller/gkm-agent/common.go:828-913 | in every reachable state recorded names lead only to objects with the entry's own labels, and every live Job of the operator, and of an agent when all namespaces are the same, is reachable from the entry it feeds |
| Linkage.DeleteLeavesNoJob | pkg/common/k8s.go:112-202 | an attempt that clears the claim name, or finds nothing left to do, leaves no live Job with the entry's labels |
| Teardown.JobTeardown | pkg/common/k8s.go:1188-1306 | over whole runs, whatever the namespaces are, a controller deletes only extract Jobs labelled for itself |
| Teardown.PvcUnused | pkg/common/k8s.go:724-777 | over whole runs, whatever the namespaces are, a claim is deleted only when no unfinished pod of the agent's node, or for the operator of any node, mounts it, and never when it is labelled for another node |
| Teardown.PvcTeardown | pkg/common/k8s.go:780-926 | over whole runs a claim is deleted only by the controller it is labelled for, and only when no Job that extracts into it is live |
| Teardown.PvTeardown | pkg/common/k8s.go:411-526 | over whole runs a PV is deleted only by the controller it is labelled for, after its Jobs, and only when no claim carries its labels |
| Teardown.NodeEntryDropped | internal/controller/gkm-agent/common.go:455-506 | an entry leaves a node's status only in a pass of that node's agent on a deleting cache, and when all namespaces are the same only when no claim with its labels exists, not even a terminating one, and no Job or PV is live |
| TeardownExactly.OwnClaimsExactlyWhen | internal/controller/gkm-agent/common.go:444-500 | for every configuration: in all runs controllers delete only claims labelled for themselves if and only if there are no nodes or all namespaces are the same |
| TeardownExactly.ClaimOrderExactlyWhen | internal/controller/gkm-agent/common.go:444-500 | for every configuration: in all runs a claim is deleted only after the Job that extracts into it under the same condition, and only then |
| TeardownExactly.CleanDropsExactlyWhen | internal/controller/gkm-agent/common.go:501-506 | for every configuration: in all runs an entry of an Agent-owned cache is dropped only when nothing labelled for it is left under the same condition, and only then |
| TeardownExactly.PvOrderExactlyWhen | pkg/common/k8s.go:411-526 | for every configuration: in all runs a PV is deleted only after the Job and the claims with its labels if and only if that condition holds or PVs are provisioned automatically |
| Teardown.CacheEntryDropped | internal/controller/gkm-operator/common.go:362-391 | an entry leaves the cache's status only when no claim with its labels exists, not even a terminating one, and no Job or PV is live |
| Teardown.NothingLeft | pkg/common/k8s.go:112-202 | an attempt that reports neither a change, nor use, nor deletion in progress means that everything with the entry's labels is cleaned up |
| DeletionMeasure.AttemptShrinksSupply | pkg/common/k8s.go:112-202 | every attempt that returns updated strictly decreases live Jobs, PVCs, PVs and recorded names together; every other attempt changes nothing |
| DeletionMeasure.DeletionTerminates | pkg/common/k8s.go:112-202 | however long a teardown of one entry runs, with the cluster moving in between, its attempts change something at most as often as that supply allows |
| DeletionEnds.DeletionEnds | internal/controller/gkm-operator/common.go:347-503 | over whole runs: once a cache is being deleted all controllers together, with any writes lost, change more than counts at most as often as there were live objects, entries, names and finalizers |
| DeletionCompletes.DeletionCompletes | internal/controller/gkm-operator/common.go:347-503 | deletion completes: in a run that leaves the cluster alone from some point of a deletion on, with writes arriving, after more rounds than a bound in what was left then, each controller taking its turn in any order, the cache is gone, unless a claim of the operator that is no longer mounted still has to be removed by the cluster; then the agents have let go |
| DeletionCompletes.AgentLetsGo | internal/controller/gkm-agent/common.go:1203-1234 | with the environment frozen, from pass number two times what is left plus one on, a node object that is set up has no finalizer and lists nothing but entries that must stay, each in condition Deleting, with a node count of zero; a node object that was never set up stays as it is |
| DeletionRest.AgentRests | internal/controller/gkm-agent/common.go:426-611 | an agent whose pass changes nothing has let go: no finalizer, and every entry still listed has a claim that an unfinished pod mounts or, for the owner, that is vanishing |
| DeletionRest.LetsGoExactlyWhen | internal/controller/gkm-operator/common.go:483-503 | when entries and status are settled, every entry left has a claim that is mounted or vanishing, and the pass lets the cache go if and only if no listing node counts and the claim of the last entry is not vanishing |
| DeletionRest.RestIsTheEnd | internal/controller/gkm-operator/common.go:483-503 | when no pass of any controller changes anything on a deleting cache, it is gone, or a claim of the operator is vanishing and all agents have let go |
| DeletionRest.AttemptReports | pkg/common/k8s.go:112-202 | a teardown attempt that changes nothing reports use and pending deletion if and only if the claim the entry leads to is mounted, or terminating and not mounted |
| DeletionRest.AttemptDoesOneThing | pkg/common/k8s.go:112-202 | a changing attempt marks one live object the entry leads to and clears its name, or clears the name of an object that is gone; only the owner marks, and never a claim in use |
| Kube.OnlyOwnerDeletes | pkg/common/k8s.go:780-926 | only the owner of an entry deletes objects for it |
| Counterexamples.ServingAfterEdit | internal/controller/gkm-operator/common.go:241-247 | a run with a lost write and an edit of the access modes that ends with a serving claim and no extraction at all |
| TwoNamespaces.ServingClaimDeleted | internal/controller/gkm-agent/common.go:444-450 | for every configuration with two different namespaces and a node: a run from a fresh cluster in which an agent deletes the operator's serving claim |
| TwoNamespaces.ClaimTooEarly | pkg/common/k8s.go:112-202 | for every such configuration: a run in which an agent deletes a claim while the Job that extracts into it runs |
| TwoNamespaces.DroppedTooEarly | internal/controller/gkm-agent/common.go:501-506 | for every such configuration: a run in which an agent drops an entry while a claim with its labels is still there |
| Convergence.BoundedWrites | internal/controller/gkm-agent/common.go:382-563 | with the environment frozen, and every namespace holding an entry or able to get its first volume, an agent makes at most ten writes per namespace and six more, however many passes it takes |
| Convergence.AgentSettles | internal/controller/gkm-agent/common.go:152-641 | then from pass number ten times the namespaces plus six on, every pass leaves the world exactly as it is |
| Convergence.SettlesExactlyWhen | internal/controller/gkm-agent/common.go:398-425 | with the environment frozen an agent comes to rest if and only if every namespace holds an entry or its first volume can be created or adopted; otherwise every pass writes |
| OperatorRest.OperatorSettles | internal/controller/gkm-operator/common.go:146-522 | with the environment frozen, terminating namespaces included, and no reported error in the way, every operator pass from number sixteen times the namespaces plus two on leaves the world exactly as it is |
| OperatorRest.PassProgress | internal/controller/gkm-operator/common.go:532-780 | an operator pass that writes strictly decreases the distance of the cache from rest, which is measured on objects, nodes and entries; a pass that does not write changes nothing |
| OperatorRest.WritesUntilZero | internal/controller/gkm-operator/common.go:146-522 | the distance is exact: a pass writes if and only if some namespace has something left to do, or counts, condition or owner are not those that the nodes and modes call for |
| OperatorRest.NameGoesFirst | pkg/common/k8s.go:780-926 | the attempt that deletes a claim clears its name, and the next one reports the pending deletion of the claim without it |
| OperatorRest.SuccessIsRecorded | internal/controller/gkm-operator/common.go:899-938 | for an Operator-owned cache at rest, in a namespace that stays, every entry past waiting whose Job has reported success says that the cache was downloaded |
| OperatorRest.SuccessInTime | internal/controller/gkm-operator/common.go:899-938 | with the environment frozen and no reported error in the way this holds from pass number sixteen times the namespaces plus two on |
| OperatorRest.SettlesExactlyWhen | internal/controller/gkm-operator/common.go:748-777 | with the environment frozen the operator comes to rest if and only if no namespace is served, or about to be, while a node reports an error for it; otherwise every pass writes |
| OperatorRest.TroubleWrites | internal/controller/gkm-operator/common.go:751-756 | while a node reports an error for a served namespace whose entry does not say so, every pass of the operator writes, and this does not end by itself |
| OperatorFacts.SummaryFollowsCounts | internal/controller/gkm-operator/common.go:748-777 | without node errors a served entry takes the condition that the cache as a whole would take for these counts, with a write exactly when that changes it; with a node error it is set to Extracted |
| OperatorFacts.ConditionIsSeverest | internal/controller/gkm-operator/common.go:438-463 | the condition of the cache is the most severe one the counts ask for, and stays when they ask for none |
| Convergence.PassProgress | internal/controller/gkm-agent/common.go:795-1130 | a pass that writes strictly decreases the distance of its node from rest; a pass that does not write changes nothing |
| Convergence.WritesUntilZero | internal/controller/gkm-agent/common.go:535-563 | a pass writes if and only if the distance is not zero |
| Convergence.OutcomeIsRecorded | internal/controller/gkm-agent/common.go:1065-1105 | at rest an entry past Pending says that the cache was downloaded if its Job has reported success, and Error if the Job has only failed |
| Convergence.UseIsRecorded | internal/controller/gkm-agent/common.go:1433-1500 | at rest an entry says Running rather than Extracted if and only if an unfinished pod of the node mounts the claim |
| Copying.WritesUntilZero | internal/controller/gkm-agent/common.go:1105-1128 | for an Operator-owned cache a pass of an agent writes if and only if its distance from rest is not zero, and a write decreases the distance |
| Copying.SettlesExactlyWhen | internal/controller/gkm-agent/common.go:1105-1128 | with the environment frozen such an agent comes to rest if and only if nothing is published without a claim name for an entry that has none; otherwise every pass writes |
| Copying.EverythingIsCopied | internal/controller/gkm-agent/common.go:1105-1128 | with the environment frozen, from pass number six times the namespaces plus six on, the node has an entry for every namespace, with a claim if one is published, that says Running rather than Extracted if and only if the claim is in use |
| Counts.QuietLoopCounts | internal/controller/gkm-agent/common.go:1433-1500 | after a loop that changes nothing: in use is one iff some entry is Running or Deleting, not in use is one iff none is and some is Extracted, pod and error counts are sums over the namespaces |
| Counts.CountsAreOrderFree | internal/controller/gkm-agent/common.go:1433-1500 | nodes that differ only in the order of their namespaces report the same counts |
| Counts.NodesCountedOnce | internal/controller/gkm-operator/common.go:965-979 | in every reachable state the summed in-use and not-in-use counts do not exceed the number of nodes that list the cache |
| NodeCounts.SpaceCountsExactly | internal/controller/gkm-operator/common.go:981-1032 | the counts of a namespace are the numbers of nodes that list the cache with an entry for it in condition Running, Extracted, Deleting, Error or UnloadError, and Outdated |
| NodeCounts.SumCountsExactly | internal/controller/gkm-operator/common.go:965-979 | each count of the cache is the sum of that count over the nodes that list the cache |
| NodeCounts.StatusWhileBusy | internal/controller/gkm-operator/common.go:221-282 | a pass that changes entries writes those sums for an Agent-owned cache and zeros for any other, and keeps the condition, or sets Pending when the owner was just decided |
| Kube.UseCountExactly | pkg/common/k8s.go:724-777 | the use count is the number of pairs of an unfinished pod of the namespace and node and one of its volumes whose claim name contains the name |
| Kube.ZeroUseIsUnmounted | pkg/common/k8s.go:724-777 | a use count of zero means that no unfinished pod in the queried scope mounts the claim |
| Invariants.UniqueDelete | pkg/common/k8s.go:112-202 | with unique objects a teardown attempt never fails |
| ApiServer.KubeApi.GetPvcUsedByList | pkg/common/k8s.go:724-777 | the nested loops count exactly the pairs of an unfinished pod in scope and one of its volumes whose claim name contains the name, none for an empty name |
| ApiServer.KubeApi.GetLatestJob | pkg/common/k8s.go:1142-1184 | the loop finds a Job no other match was created after, or nothing if nothing matches |
| ApiServer.KubeApi.PvExists | pkg/common/k8s.go:290-368 | a known name, one match, no match and several matches are told apart, the last as an error |
| ApiServer.KubeApi.PvcExists | pkg/common/k8s.go:611-689 | the same for claims |
| ApiServer.KubeApi.CreatePv | pkg/common/k8s.go:205-288 | a PV with the labels appears, unless the name is taken |
| ApiServer.KubeApi.CreatePvc | pkg/common/k8s.go:529-608 | a claim with the labels appears, unless the name is taken in its namespace or the namespace is missing or terminating |
| ApiServer.KubeApi.EnsureVolume | internal/controller/gkm-agent/common.go:811-931 | one object per call is adopted or created, the PV before the claim and only where none is provisioned automatically |
| ApiServer.KubeApi.LaunchJob | pkg/common/k8s.go:930-1138 | a Job is created if and only if none with the same labels is listed and the namespace exists and is not terminating |
| ApiServer.KubeApi.DeleteJob | pkg/common/k8s.go:1188-1306 | new cluster and entry are those of the deletion rules: vanished name cleared, live Job deleted by its owner only |
| ApiServer.KubeApi.DeletePvc | pkg/common/k8s.go:780-926 | new cluster, entry and the in-use and deleting reports are those of the deletion rules |
| ApiServer.KubeApi.DeletePv | pkg/common/k8s.go:411-526 | new cluster and entry are those of the deletion rules |
| ApiServer.KubeApi.ManagePvcStatusDelete | pkg/common/k8s.go:112-202 | the three stages in order; the first change, use or pending deletion ends the attempt, an error of a stage does not |
| AgentController.ManagePVandPVC | internal/controller/gkm-agent/common.go:795-937 | cluster and entry after the step are those of the specification that the invariants are proved about |
| AgentController.FollowLatest | internal/controller/gkm-agent/common.go:1065-1105 | the entry follows the state of its Job as specified: success, failure, readiness, in this order |
| AgentController.ManageJob | internal/controller/gkm-agent/common.go:942-1130 | launch, follow, resume or copy the operator's entry, as specified |
| AgentController.ManagePvcStatusModify | internal/controller/gkm-agent/common.go:743-790 | the Job is looked at only when the volumes needed nothing |
| AgentController.CountEntry | internal/controller/gkm-agent/common.go:1433-1500 | counts and the flip between Extracted and Running are as specified |
| AgentController.ReleaseEntry | internal/controller/gkm-agent/common.go:444-500 | teardown of one entry, by attempt for the owner and by use count otherwise, as specified |
| AgentController.ModifyTurn | internal/controller/gkm-agent/common.go:386-425 | one turn of the namespace loop of a live cache is one unfolding of the specified loop |
| AgentController.ReleaseTurn | internal/controller/gkm-agent/common.go:426-533 | one turn of the namespace loop of a deleting cache is one unfolding of the specified loop |
| AgentController.RunNamespaces | internal/controller/gkm-agent/common.go:382-533 | the namespace loop with its early exit computes the specified loop |
| AgentController.RemoveCacheFromCacheNode | internal/controller/gkm-agent/common.go:1139-1238 | the cache leaves the status first, the finalizer goes in a later pass or when the cache is still in use; that it goes in the end is DeletionCompletes.AgentLetsGo |
| AgentController.ReconcileCache | internal/controller/gkm-agent/common.go:313-611 | cluster and node object after the pass are those of the specified pass |
| AgentController.Reconcile | internal/controller/gkm-agent/common.go:152-641 | a whole pass, node creation and set-up included, is the specified pass |
| OperatorController.CollectNodeCounts | internal/controller/gkm-operator/common.go:942-1036 | in any map order the loops yield the sum of each count over the listing nodes and, for every reported namespace, the number of nodes by condition of its entry |
| OperatorController.DetermineOwnerOf | internal/controller/gkm-operator/common.go:1267-1275 | the loop yields the operator if and only if some mode is ReadOnlyMany |
| OperatorController.ManagePVandPVC | internal/controller/gkm-operator/common.go:584-780 | namespace check, hold-off, volumes and summary as specified |
| OperatorController.ManageJob | internal/controller/gkm-operator/common.go:785-940 | launch or follow the Job as specified; that every success gets recorded is OperatorRest.SuccessIsRecorded |
| OperatorController.ManagePvcStatusModify | internal/controller/gkm-operator/common.go:532-579 | the Job is looked at only for an Operator-owned cache whose volumes needed nothing |
| OperatorController.ModifyTurn | internal/controller/gkm-operator/common.go:306-345 | one turn of the loop for a live namespace is one unfolding of the specified loop |
| OperatorController.ReleaseTurn | internal/controller/gkm-operator/common.go:347-399 | one turn of the loop for a deleting cache or namespace is one unfolding of the specified loop |
| OperatorController.RunNamespaces | internal/controller/gkm-operator/common.go:296-401 | the namespace loop with its early exit computes the specified loop |
| OperatorController.PrepareStatus | internal/controller/gkm-operator/common.go:221-282 | the status a pass starts from: owner decided on first sight, counts collected early for an Agent-owned cache |
| OperatorController.Reconcile | internal/controller/gkm-operator/common.go:146-522 | a whole pass of the operator is the specified pass |
| ExtractProofs.CrashSafe | gkm-extract/main.go:84-135 | in every state of any number of extractors with any URLs and crashes, a sentinel that names a URL is true: every file of that image is there with its content |
| ExtractUnsafe.SafeExactlyWhenListedAfter | gkm-extract/main.go:161-175 | the sentinel is crash safe in all runs if and only if at most one URL is in play or everything the images bring is listed after it |
| ExtractProofs.AloneIsSafe | gkm-extract/main.go:88-95 | with one URL throughout the sentinel is true in every state, whatever the image brings |
| ExtractUnsafe.UnsafeRun | gkm-extract/main.go:96-101 | for any two images, one of which brings something listed before the sentinel, a run that ends with a false sentinel |
| ExtractProofs.MutualExclusion | gkm-extract/main.go:69-80 | all open lock handles refer to one inode, at most one process is between flock and unlock, and only that one changes files |
| ExtractProofs.ExtractOnce | gkm-extract/main.go:88-95 | with one URL throughout, whatever the image brings, at most one extraction succeeds, and no later step of any process changes a file |
| ExtractClears.ClearingClears | gkm-extract/main.go:161-175 | over whole runs: when a clearing ends nothing is left but the lock and the temporary file, and no file of any image |
| ExtractClears.ReplacedEntirely | gkm-extract/main.go:96-124 | over whole runs: a success after a clearing leaves exactly its image, the lock file and the sentinel, nothing of the old image |
| ExtractClears.LeavesImageAndStrays | gkm-extract/main.go:103-124 | over whole runs: a success leaves its image, the lock file, the sentinel, and beside them exactly the strays that were there when the process began to fill the directory |
| ExtractClears.PureExactlyWhenSameFiles | gkm-extract/main.go:88-124 | in all runs every success leaves exactly its image if and only if all images bring the same files |
| ExtractClears.NoTmpIsLeft | gkm-extract/main.go:103-124 | unless a process crashes, the temporary file is there only while a process is filling the directory |
| ExtractMain.TraceIsSafe | gkm-extract/main.go:50-135 | whenever the program is stopped, a sentinel that is there is true |
| ExtractMain.Directory.ClearDirectory | gkm-extract/main.go:161-175 | the loop removes every entry except the lock file and the temporary file, and touches nothing else, each removal a step of the protocol |
| ExtractMain.Directory.Prepare | gkm-extract/main.go:69-102 | a sentinel that names the URL leaves all files as they are; one that names another URL leaves exactly the files of the lock and the temporary name; without a sentinel only the lock file is added |
| ExtractMain.Directory.ExtractCache | gkm-extract/main.go:50-135 | success, and only success, leaves a sentinel that names the URL, with the whole image in place; the files left are exactly those before, or those spared when another URL was replaced, with lock, image and sentinel added; every state on the way is one of the protocol, so a true sentinel is true throughout |
| Names.LineRoundTrip | gkm-extract/main.go:89-103 | a trimmed URL written with a line end and read back trimmed is the URL |
| Names.TrimExactly | gkm-extract/main.go:89 | trimming takes white space off both ends, all of it and nothing else |
| Names.BeforeExactly | gkm-extract/main.go:161-175 | the listing order is lexicographic: a proper prefix comes first, otherwise the first difference decides |
| PackProofs.RoundTrip | mcv/pkg/cache/cache.go:180-255 | for every tree, unpacking the packed layer rebuilds exactly that tree, routes the manifest to its own directory, leaves everything else alone and returns the total size |
| PackProofs.ImageRoundTrip | mcv/pkg/fetcher/imgfetcher.go:354-398 | the same through a whole image with other layers around, and the size check accepts exactly when the cache holds any bytes |
| PackProofs.SizeAccepted | mcv/pkg/fetcher/imgfetcher.go:401-432 | the size check accepts the label of the build if and only if the total is not zero, and no other number |
| PackReports.RoundTripDirs | mcv/pkg/cache/cache.go:219-230 | the directories reported after a round trip are exactly those of the packed tree, each once; the top only if files lie there |
| PackReports.ImageReported | mcv/pkg/fetcher/imgfetcher.go:354-398 | for any image: the bytes are the sum over the cache files of all layers of a supported media type, and the directories are those their entries lie in |
| PackReports.PutExactly | mcv/pkg/cache/cache.go:232-250 | an entry is put in its place with its parents and nothing else changes; it fails exactly when a file is in the way or a file and a directory would replace each other |
| PackReports.EntryGoesToItsPlace | mcv/pkg/cache/cache.go:205-230 | entries of the cache and the manifest have a place each, anything else is skipped |
| PackReports.SizeCheckExactly | mcv/pkg/fetcher/imgfetcher.go:401-432 | no label, a label that is no number, no bytes, another number of bytes and the right one are told apart |
| Paths.ComponentsSplit | mcv/pkg/cache/cache.go:219-224 | a slash separates: what stands before it and after it falls apart into components on its own |
| Paths.ComponentsOfName | mcv/pkg/cache/cache.go:219-224 | a name without a slash is one component, and none if it is empty or a dot |
| PackProofs.TritonAgrees | mcv/pkg/cache/triton.go:366-374 | the Triton tags and prefixes fit together |
| PackProofs.VllmAgrees | mcv/pkg/cache/vllm.go:911-935 | the vLLM tags and prefixes fit together, although one ends in a slash and the other does not |
| PackMain.TarWriter.WriteCompatLayerTar | mcv/pkg/imgbuild/schema2image.go:99-110 | the layer holds the entries of the cache under one tag, then those of the manifest directory under the other |
| PackMain.TarWriter.AppendTreeToTar | mcv/pkg/imgbuild/schema2image.go:112-152 | the walk appends one header per entry below the root, in walk order |
| PackMain.TotalDirSize | mcv/pkg/cache/cache.go:119-135 | the walk adds up the sizes of all files of the tree |
| PackMain.TargetDisk.ExtractCacheAndManifestDirectory | mcv/pkg/cache/cache.go:180-255 | the loop unpacks as specified and lists no directory twice |
| PackMain.TargetDisk.ExtractCompatImg | mcv/pkg/fetcher/imgfetcher.go:354-398 | the loop unpacks every layer of a supported media type, an image without one is an error |
| GpuFleet.SummarizeDevice | mcv/pkg/accelerator/devices/device.go:395-437 | groups strictly sorted by product and driver, one for each, each with exactly its parsed ids in order |
| GpuFleet.KeyBeforeExactly | mcv/pkg/accelerator/devices/device.go:424-436 | groups are ordered by product, and within one product by driver, as text |
| GpuFleet.SummaryIsCanonical | mcv/pkg/accelerator/devices/device.go:424-436 | the result depends on the multiset of summaries only |
| GpuFleet.SummaryConservesIds | mcv/pkg/accelerator/devices/device.go:409-428 | the ids of all groups together are a permutation of all parsed ids |
| GpuFleet.ParsedIdExactly | mcv/pkg/accelerator/devices/device.go:409-414 | a signed number of any size yields the nearest 64-bit number, any other text zero |
| DeviceMain.FleetOfCards | mcv/pkg/accelerator/devices/device.go:395-437 | from the cards to the fleet: a group holds the ids of exactly the cards with its product and driver, and every card has a group |
| Devices.RestoredIsProbed | mcv/pkg/accelerator/devices/amd.go:52-84 | saving infos and summaries in any two orders and restoring them yields the probed device map, through printing and parsing of ids |
| Devices.FleetIsOrderFree | mcv/pkg/accelerator/devices/amd.go:445-461 | the fleet summary is the same for every order in which the device map is gone through |
| Devices.RestoreInfoExactly | mcv/pkg/accelerator/devices/amd.go:52-65 | restoring any infos files each under its id, and of several with one id the last stays |
| Devices.RestoreSummariesExactly | mcv/pkg/accelerator/devices/amd.go:68-84 | restoring any summaries gives each device the last one that scans to its id, and adds no device |
| DeviceMain.GpuDevice.SetTritonInfo | mcv/pkg/accelerator/devices/amd.go:52-65 | the device map is built anew from the infos |
| DeviceMain.GpuDevice.SetSummaries | mcv/pkg/accelerator/devices/amd.go:68-84 | each summary goes to the device its id scans to, if there is one |
| DeviceMain.GpuDevice.Init | mcv/pkg/accelerator/devices/amd.go:311-344 | every card is filed under its own id with its identity, architecture and memory, and summed up by its id in print, its driver and its product |
| DeviceMain.MemoryIsMegabytes | mcv/pkg/accelerator/devices/amd.go:347-356 | gigabytes and kilobytes are converted to megabytes, any other unit is taken for megabytes, and a negative size wraps around |
| DeviceMain.GpuDevice.GetAllGPUInfo | mcv/pkg/accelerator/devices/amd.go:427-435 | the infos of all devices, each once, in some order |
| DeviceMain.GpuDevice.GetAllSummaries | mcv/pkg/accelerator/devices/amd.go:445-461 | the summaries of all devices in some order, and the same list again from then on |
| DeviceMain.SaveDevice | mcv/pkg/accelerator/devices/device.go:248-284 | the cache entry holds name, types, infos and summaries of the device |
| DeviceMain.InitializeFromCache | mcv/pkg/accelerator/devices/device.go:358-377 | a restored device carries everything that was saved, and one restored from what was saved of a probed map has that map |
| DeviceMain.Startup | mcv/pkg/accelerator/devices/device.go:287-355 | restore if the cache names a registered, supported type, else probe and save; a restored device agrees with the probe that was saved |
| TargetSummary.BuildTritonSummary | mcv/pkg/cache/triton.go:334-358 | the targets of the first entry with each key, one per key, in any order |
| TargetSummary.KeyIsInjective | mcv/pkg/cache/triton.go:341-349 | plain entries with the same key have the same target |
| TargetSummary.SummaryIsLossless | mcv/pkg/preflightcheck/utils.go:62-84 | for plain entries a GPU fits the summary if and only if it fits some metadata entry |
| TargetSummary.LosslessExactlyWhen | mcv/pkg/cache/triton.go:334-358 | for any entries the summary decides for every GPU what the metadata decides if and only if every entry agrees in backend, normalized architecture and warp size with one that is the first with its key |
| TargetSummary.SummaryIsSound | mcv/pkg/preflightcheck/utils.go:62-84 | for any entries the summary never claims more than the metadata |
| TargetSummary.NormalizedExactly | mcv/pkg/preflightcheck/utils.go:18-25 | for CUDA the prefix of a compute capability is dropped, anything else is left as it is |
| Preflight.DashInBackendLoses | mcv/pkg/cache/triton.go:342 | a backend with a dash can make the summary lose a target |
| Preflight.NegativeWarpLoses | mcv/pkg/cache/triton.go:342 | a negative warp size can make the summary lose a target |
| Preflight.PrintedNumberLoses | mcv/pkg/cache/triton.go:342 | an architecture text that looks like a printed number can make the summary lose a target |
| Preflight.PrintedIntegerLoses | mcv/pkg/cache/triton.go:342 | so can one that looks like a printed integer |
| Preflight.CompareCacheSummaryLabelToGPU | mcv/pkg/preflightcheck/utils.go:27-95 | the labels passed, or those of the image if it can be read and has any; matched and unmatched GPUs in order, error exactly when none matches or the label is missing or garbled |
| Preflight.FittingPartitions | mcv/pkg/preflightcheck/utils.go:62-89 | every GPU is reported exactly once, as matched or as unmatched |
| Preflight.FittingSplits | mcv/pkg/preflightcheck/utils.go:62-89 | GPUs are sorted one by one and keep their order |
| Preflight.CompareTritonEntriesToGPU | mcv/pkg/preflightcheck/triton.go:29-97 | the outcome for every input: no entries, no device list, key error, backend mismatch, no GPU, and compatible if and only if some entry and GPU agree in backend, normalized architecture, warp size and, for CUDA, PTX version, with the right dummy key where it is checked |
| Preflight.ManifestImpliesSummary | mcv/pkg/preflightcheck/triton.go:29-97 | if the manifest is compatible, the check of the summary label finds a match too |
| Decimal.ParsePrinted | mcv/pkg/fetcher/imgfetcher.go:412-416 | parsing a printed 64-bit number gives it back |
| Decimal.ParseExactly | mcv/pkg/fetcher/imgfetcher.go:412-416 | exactly an optional sign and digits are parsed, within the 64-bit range, to their value |
| Devices.ScanExactly | mcv/pkg/accelerator/devices/amd.go:75-77 | scanning parses a sign and the digits after it, and ignores what follows |
| Devices.ScanPrinted | mcv/pkg/accelerator/devices/amd.go:75-77 | scanning a printed id gives it back |
| Admission.StoredWasResolved | api/v1alpha1/clustergkmcache_webhook.go:57-123 | along every history the stored image and digest are a pair the mutating webhook resolved and signed in an admitted or earlier request |
| Admission.DigestFollowsImage | api/v1alpha1/clustergkmcache_webhook.go:162-202 | the digest changes only in a step that changes the image |
| Admission.CreateExactly | api/v1alpha1/clustergkmcache_webhook.go:57-160 | when a create is admitted, for all inputs, and what is stored then: the image with the resolved digest and the signature for both |
| Admission.UpdateExactly | api/v1alpha1/clustergkmcache_webhook.go:57-202 | when an update is admitted, for all inputs, and what is stored then |
| Admission.DeleteExactly | api/v1alpha1/clustergkmcache_webhook.go:205-212 | a delete is admitted if and only if something is stored, and leaves the signatures usable |
| Admission.RefusedKeeps | api/v1alpha1/clustergkmcache_webhook.go:126-202 | a request that is turned away leaves the stored object alone |
| Admission.RetagAdmittedExactlyWhen | api/v1alpha1/clustergkmcache_webhook.go:84-90 | an update that changes the image and keeps its annotations is admitted if and only if the new image resolves to a different digest or the stored signature is the one for the new image |
| Admission.GenuineRetagRefused | api/v1alpha1/clustergkmcache_webhook.go:84-90 | with the signature issued for it, a stored object cannot move to another image of the same digest |
| Admission.SignatureCanBeSwapped | api/v1alpha1/clustergkmcache_webhook.go:177-183 | an update that keeps image and digest is admitted whatever signature it brings, and that signature is stored |
| Admission.SignatureIsReplayable | api/v1alpha1/clustergkmcache_webhook.go:126-160 | a create that brings a pair signed at any earlier time, with its signature, is admitted and signs nothing |
| Admission.UnsignedCreateExactlyWhen | api/v1alpha1/clustergkmcache_webhook.go:84-160 | a create that signs nothing is admitted if and only if nothing is stored and it brings the resolved digest with its signature, which then was issued before |
| Admission.UnsignedUpdateExactlyWhen | api/v1alpha1/clustergkmcache_webhook.go:162-202 | an update that signs nothing is admitted if and only if it keeps image and digest, or it brings the resolved digest with its signature, which then was issued before |
| Admission.MessageIsInjective | api/v1alpha1/clustergkmcache_webhook.go:226-235 | what is signed determines image and digest |
| Admission.TrustStays | api/v1alpha1/clustergkmcache_webhook.go:126-202 | every request, admitted or not, keeps the stored pair among the signed ones |
| Admission.ClusterCache.Default | api/v1alpha1/clustergkmcache_webhook.go:57-123 | the annotations after mutation, refusals included, are the specified ones |

## Left out

- Theorems.ServingSafety: holds under the hypothesis that no edit of the access modes calls for another owner while none is recorded; Counterexamples.ServingAfterEdit shows why, and Theorems.ServingSafeExactlyWhen gives the exact condition.
- Teardown.PvcTeardown: for an agent it holds when all namespaces are the same; TeardownExactly.OwnClaimsExactlyWhen and TeardownExactly.ClaimOrderExactlyWhen show that this is exact. Use safety, Teardown.PvcUnused, holds always.
- Teardown.PvTeardown: for an agent it holds when all namespaces are the same; TeardownExactly.PvOrderExactlyWhen gives the exact condition.
- Teardown.NodeEntryDropped: with different namespaces it says nothing about claims of an Agent-owned cache; TeardownExactly.CleanDropsExactlyWhen shows that this is exact.
- LinkProofs.RunGood: with different namespaces it says nothing about live Jobs of agents; TwoNamespaces.DroppedTooEarly builds a run that leaves one without its entry.
- DeletionMeasure.DeletionTerminates: is about one entry; DeletionEnds.DeletionEnds covers all entries and controllers.
- DeletionEnds.DeletionEnds: does not bound writes that only change counts, because pods may come and go forever.
- Convergence.BoundedWrites: a write that changes nothing but a time stamp counts as a write; time stamps themselves are not modelled.
- TargetSummary.SummaryIsLossless: assumes backends without a dash, non-negative warp sizes and architecture texts that do not look like printed numbers; the three lemmas named Loses show that each is needed, and TargetSummary.LosslessExactlyWhen gives the exact condition for a list of entries.
- Counts.CountsAreOrderFree: leaves out the node count, which is set again by every entry that is counted.
- The handling of stranded claims after a cache object is gone, by agents and by the operator; passes do nothing then.
- Several caches on one cache-node object, changes of the digest, and a cache that is created again after deletion.
- Errors of API reads; a failed pod list, which counts as no use.
- Pod templates, capacities, storage classes, access modes of volumes, security contexts and time stamps: the protocol does not depend on them.
- The namespaced webhook, which repeats the cluster-wide one with other annotations; image verification and HMAC themselves.
- Registry access, gzip and tar formats, file modes, symbolic links, and archive names with dot-dot components.
- JSON: labels, manifests and the device cache file are structured values. The age limit of the device cache file is the caller's choice to pass no saved device.
- NVML and ROCm devices, which repeat the shape of the AMD device; the mapping from product names to architectures.
- Floating-point architectures with a fraction; white space outside Latin-1 when a line is trimmed; blanks in front of a scanned id.
- Sizes and counters are unbounded except where a parse or a conversion bounds them.
- vLLM metadata, summaries and manifests.
