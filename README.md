# InferenceJob controller: a Dafny model

This project models the reconciliation loop of a Kubernetes controller for the `InferenceJob`
custom resource (`controller.go`). An InferenceJob names a target Deployment, an optional
replica count and an image. The controller keeps a Deployment of that name in line with the job:

- it creates the Deployment, under a controller owner reference back to the job, when it is missing;
- it refuses a same-named Deployment the job does not control;
- it scales the Deployment when the job's replica count is set and differs;
- it mirrors the Deployment's `AvailableReplicas` into the job's status.

Changes reach it through informer callbacks. Callbacks for a Deployment are mapped back to its
controlling job. Every change becomes a "namespace/name" key on a rate-limited work queue, and
workers take keys off that queue one at a time.

Modules, one per part of the program:

- `Strings` (strings.dfy): Go's `strings.Split` for one separator character, and its inverse `Join`.
- `Types` (types.dfy): the InferenceJob schema of `types.go` and the Deployment and metadata fields the controller touches. `*int32` becomes `Option<int32>`.
- `Meta` (meta.dfy): controller owner references (`GetControllerOf`, `IsControlledBy`, `NewControllerRef`) and work-queue keys (`MetaNamespaceKeyFunc`, `SplitMetaNamespaceKey`).
- `Deployments` (deployments.dfy): `newDeployment`, and what the API server stores for a written Deployment.
- `Sync` (sync.dfy): `Reconcile`, a pure statement of which calls one `syncHandler(key)` issues and which error it returns. It is a function of the two caches, the key and a `Faults` value saying which external calls fail. The lemmas of this module hold the reconcile properties.
- `Owners` (owners.dfy): the decision `handleObject` makes. The input is the tagged variant `Live | Tombstone | Garbage`.
- `WorkQueue` (workqueue.dfy): the work queue as an abstract object. Its state is pending, processing and back-off sets, per-item failure counts, and a ghost log of calls.
- `SampleController` (controller.dfy): the imperative `Controller` class.
  - The two listers are map fields that its methods never modify.
  - Every write API call and recorded event is appended to `writes`.
  - `SyncHandler` is proved to issue exactly the calls of `Reconcile` and to return its error.
  - `ProcessNextWorkItem` is proved to follow the queue protocol.

The collaborators are abstract state:

- The caches are maps from (namespace, name) to object.
- The write API is the `writes` log with one failure flag per call.
- The API server's reply to a Create or Update is the object it stores (`ServerDefaults`, `UpdateReply`). An unset replica count is stored as 1, the Deployment default. An Update keeps the stored status.
- Cached Deployments therefore always have their replica count set (`ReplicasDefaulted`). That is the condition under which the unconditional dereference at controller.go:302 is safe, so `SyncHandler` and `Reconcile` require it.

`SplitMetaNamespaceKey`, `MetaNamespaceKeyFunc`, `GetControllerOf` and `IsControlledBy` belong to
client-go and apimachinery, which are not part of this model. They are written out concretely in
`Meta`, after the behaviour of those libraries:

- a key of one piece is a name in the empty namespace, two pieces are namespace and name, and anything else fails;
- the controller reference is the first owner reference with `Controller` set;
- "controlled by" compares that reference's UID with the owner's.

The InferenceJob group version string `samplecontroller.k8s.io/v1alpha1` comes from the package's
registration file, which is not part of this model either.

## Model

| member | source | states |
|---|---|---|
| `Strings.Split` | controller.go:437 | every piece is free of the separator and there is at least one piece, so `[0]` is always defined |
| `Strings.SplitJoin` | controller.go:437 | joining the pieces with the separator gives back the original string |
| `Strings.SplitCount` | controller.go:437 | `Split` yields exactly one more piece than the string holds separators |
| `Strings.JoinSplit` | controller.go:437 | splitting a join of separator-free pieces gives back those pieces, so the split is the unique such cut |
| `Meta.ControllerOf` | controller.go:383 | the result is the first owner reference with `Controller` set; there is none exactly when no reference has it set |
| `Meta.NewControllerRef` | controller.go:421 | a controller reference of kind InferenceJob with the owner's name and UID and `BlockOwnerDeletion` set |
| `Meta.IsControlledBy` | controller.go:293 | no contract of its own: "controlled by" is the controller reference's UID matching the owner's; `Meta.SoleControllerRef`, `Sync.ConflictWhenNotControlled` and `Sync.ConvergeOwned` state what follows from it |
| `Meta.SoleControllerRef` | controller.go:420-422 | an object whose only owner reference is a controller reference to the job is controlled by the job |
| `Meta.SplitKey` | controller.go:249-253 | a key splits iff `Split` cuts it into at most two pieces, that is iff it holds at most one '/'; the parts hold no '/'; a key without '/' is a name in the empty namespace |
| `Meta.MetaNamespaceKey` | controller.go:346 | no contract of its own: `Meta.KeyRoundTrip` and `Meta.SplitKeyRebuilds` state that it and `SplitKey` invert each other |
| `Meta.KeyRoundTrip` | controller.go:342-353 | the key that `enqueueInferenceJob` queues for a job splits back into the job's own namespace and name |
| `Meta.SplitKeyRebuilds` | controller.go:249 | a key that splits is rebuilt from its parts, except that a leading "/" is not restored |
| `Deployments.ContainerName` | controller.go:437 | no contract of its own: `Deployments.ContainerNameIsPrefix` states that it is the image's longest ':'-free prefix |
| `Deployments.ContainerNameIsPrefix` | controller.go:437 | the container name is the image up to its first ':' (the whole image when there is no ':'), and it holds no ':' |
| `Deployments.Labels` | controller.go:409-412 | the labels are exactly `app` (the image) and `controller` (the job's name) |
| `Deployments.NewDeployment` | controller.go:407-446 | the name and namespace come from the job; its only owner reference is a controller reference to the job, so the job controls it; replicas are copied; selector and template labels are equal; there is one container with the job's image and the image's name part |
| `Deployments.ServerDefaults` | controller.go:281 | the stored Deployment always has a replica count; a Deployment that has one is stored unchanged |
| `Deployments.UpdateReply` | controller.go:304 | an updated Deployment has the sent spec with its replica count defaulted, the sent metadata, and keeps its stored status |
| `Sync.Reconcile` | controller.go:247-323 | no contract of its own: the whole of `syncHandler(key)` as the calls issued and the error returned; the `Sync` lemmas below state its properties, and `SampleController.Controller.SyncHandler` is proved to do exactly this |
| `Sync.ReconcileJob` | controller.go:268-323 | no contract of its own: the steps from the `DeploymentName` check on; stated through `Sync.SilentIffDropped` and `Sync.CreateWhenAbsent` |
| `Sync.Converge` | controller.go:293-323 | no contract of its own: the ownership check and the scaling step; stated through `Sync.ConflictWhenNotControlled`, `Sync.ConvergeOwned` and `SampleController.Controller.SyncDeployment` |
| `Sync.NeedsScale` | controller.go:302 | no contract of its own: the replica count is set and differs; `Sync.ConvergeOwned` states that an Update is issued exactly then |
| `Sync.MirrorStatus` | controller.go:316-336 | no contract of its own: the status write followed by the Synced event only on success; stated through `Sync.SyncedOnlyAfterStatusWrite` and `Sync.StatusWriteIsCopy` |
| `Sync.StatusCopy` | controller.go:329-330 | the copy keeps the job's metadata and spec and takes `AvailableReplicas` from the Deployment |
| `Sync.MessageResourceExists` | controller.go:294 | the message quotes the conflicting Deployment's name right after `Resource ` |
| `Sync.ConflictEvent` | controller.go:295 | no contract of its own: the Warning `ErrResourceExists` event on the job; `Sync.ConflictWhenNotControlled` states when it is the only call |
| `Sync.SyncedEvent` | controller.go:321 | no contract of its own: the Normal `Synced` event on the job; `Sync.SyncedOnlyAfterStatusWrite` states that it is only the last call of a successful sync |
| `Sync.SilentIffDropped` | controller.go:249-275 | a sync issues nothing and returns nil iff the key is malformed, the job is not cached, or its `DeploymentName` is empty |
| `Sync.JobListerErrorReturned` | controller.go:256-266 | a lister error other than NotFound is returned with nothing issued |
| `Sync.DeploymentListerErrorReturned` | controller.go:277-288 | a Deployment-lister error other than NotFound is returned with nothing issued |
| `Sync.CreateWhenAbsent` | controller.go:277-289 | without a cached Deployment exactly one `Create(newDeployment(job))` is issued; if it fails, its error is returned and nothing follows; otherwise there is no Update, then the status write and, only if that succeeds, the Synced event |
| `Sync.ConflictWhenNotControlled` | controller.go:291-297 | a Deployment not controlled by the job yields only a Warning `ErrResourceExists` event naming it, and a failure |
| `Sync.ConvergeOwned` | controller.go:299-323 | for a controlled Deployment, `Update(newDeployment(job))` is issued iff the job's replicas are set and differ. A failed update is returned with nothing after it. Otherwise the job's copy with the Deployment's `AvailableReplicas` is written, and the Synced event is recorded only if that write succeeds |
| `Sync.Apply` | controller.go:281-330 | no contract of its own: the caches once the API server has stored one write and the informers have delivered it; used by `Sync.SuccessfulSyncConverges` |
| `Sync.ApplyAll` | controller.go:281-330 | no contract of its own: `Apply` over the writes of a sync, in order; `Sync.ApplyAllKeepsInvariants` states what it keeps |
| `Sync.ApplyAllKeepsInvariants` | controller.go:281-330 | storing any sequence of writes keeps every cached Deployment's replica count set and every cached job under its own key |
| `Sync.ConvergedWritesNoDeployment` | controller.go:299-312 | a sync of a job whose Deployment is controlled and already at the job's replica count issues no Create and no Update, whatever fails |
| `Sync.SuccessfulSyncConverges` | controller.go:277-323 | once the writes of a successful sync are stored, the job is unchanged apart from status; its Deployment is cached, controlled by it and at its replica count |
| `Sync.ResyncWritesNoDeployment` | controller.go:277-323 | idempotence: after a sync that returned nil and whose writes are stored, a second sync issues no Create and no Update |
| `Sync.SyncedOnlyAfterStatusWrite` | controller.go:314-322 | the Normal event is only ever the last call, right after a status write, on a sync that returned nil |
| `Sync.StatusWriteIsCopy` | controller.go:325-336 | the status write sends the cached job with the same metadata and spec; a failed status write is returned as a failure |
| `Owners.Unwrap` | controller.go:363-380 | a live object is used as is, a tombstone yields its final object if it has one, garbage yields nothing |
| `Owners.ResolveOwner` | controller.go:361-402 | the owner found is a cached job |
| `Owners.ResolveOwnerIff` | controller.go:383-398 | an owner is found iff the object's controller reference has kind InferenceJob and names a job cached in the object's namespace, and then it is that job |
| `Owners.UndecodableDropped` | controller.go:365-377 | garbage and tombstones without an object enqueue nothing |
| `Owners.TombstoneUnwrapped` | controller.go:366-380 | a tombstone resolves exactly like the live object it wraps |
| `Owners.UnownedDropped` | controller.go:383-396 | no controller reference, another kind, or an orphan (job not cached) enqueues nothing |
| `Owners.NewDeploymentResolvesToJob` | controller.go:383-398 | a Deployment built by `newDeployment(job)`, live or as a tombstone, resolves to that job while it is cached |
| `WorkQueue.RateLimitingQueue.constructor` | controller.go:111 | a new queue has nothing pending, processing or waiting, no failure counts, no calls, and is not shutting down |
| `WorkQueue.RateLimitingQueue.Add` | controller.go:353 | the item becomes pending unless the queue is shutting down; nothing else changes |
| `WorkQueue.RateLimitingQueue.Get` | controller.go:192 | shutdown is reported iff nothing is pending outside processing; otherwise a pending item not being processed moves to processing |
| `WorkQueue.RateLimitingQueue.Done` | controller.go:206 | the item leaves processing; nothing else changes |
| `WorkQueue.RateLimitingQueue.Forget` | controller.go:218 | the item's failure count is cleared |
| `WorkQueue.RateLimitingQueue.AddRateLimited` | controller.go:226 | the item's failure count grows by one and it waits out a back-off, unless shutting down |
| `WorkQueue.RateLimitingQueue.ShutDown` | controller.go:153 | the queue is shutting down; the items are kept |
| `SampleController.Controller.constructor` | controller.go:104-113 | the controller starts with the given caches and no writes; its queue is fresh, with nothing pending, processing or waiting, no failure counts, no calls and not shutting down |
| `SampleController.Controller.CreateDeployment` | controller.go:281 | one Create is logged; the reply is the stored object, or nothing on failure |
| `SampleController.Controller.UpdateDeployment` | controller.go:304 | one Update is logged; the reply is the stored object, or nothing on failure |
| `SampleController.Controller.RecordEvent` | controller.go:295 | one event on the job is logged |
| `SampleController.Controller.UpdateInferenceJobStatus` | controller.go:325-337 | a copy of the job with the Deployment's `AvailableReplicas` is written; the caches are untouched |
| `SampleController.Controller.SyncHandler` | controller.go:247-289 | the calls issued and the error returned are exactly those of `Reconcile`; the caches are not modified |
| `SampleController.Controller.SyncDeployment` | controller.go:291-323 | the ownership check, the scaling and the status step issue exactly the calls of `Converge` |
| `SampleController.Controller.EnqueueInferenceJob` | controller.go:342-354 | the job's "namespace/name" key is added to the queue |
| `SampleController.Controller.HandleObject` | controller.go:361-402 | the resolved owner's key is added to the queue; without an owner the queue is unchanged |
| `SampleController.Controller.OnJobAdd` | controller.go:117-118 | an added job's key is queued |
| `SampleController.Controller.OnJobUpdate` | controller.go:119-121 | the new version's key is queued |
| `SampleController.Controller.OnDeploymentAdd` | controller.go:130 | an added Deployment goes through owner resolution |
| `SampleController.Controller.OnDeploymentDelete` | controller.go:141 | a deleted Deployment, or its tombstone, goes through owner resolution |
| `SampleController.Controller.OnDeploymentUpdate` | controller.go:131-140 | an update with the same resource version leaves the queue unchanged; any other goes through owner resolution |
| `SampleController.Controller.ProcessItem` | controller.go:200-228 | for a handed-out item: the writes are those of its sync; then `AddRateLimited` if it is a string key whose sync failed, `Forget` otherwise, and the deferred `Done` last; the item leaves processing and nothing else in the queue changes |
| `SampleController.Controller.ProcessNextWorkItem` | controller.go:190-242 | returns false iff `Get` reports shutdown. Otherwise: exactly one `Done`, as the last call; before it `Forget` for a non-string item or a successful sync, and for a failed sync `AddRateLimited` without `Forget`; writes are those of the sync. On the shutdown path nothing is written and the queue is unchanged apart from the logged call |

## Left out

- `Run`, `runWorker`, `wait.Until` and `WaitForCacheSync` (controller.go:151-186) are worker lifecycle and blocking on a channel. Only one worker step, `ProcessNextWorkItem`, is modelled.
- The blocking of `Get` is not modelled. `RateLimitingQueue.Get` requires that it can return: an item is pending outside processing, or the queue is shutting down.
- The queue's internals belong to client-go, which is not part of this model:
  - FIFO order: `Get` may hand out any eligible item;
  - the back-off durations and the timer that moves a waiting item back to pending;
  - thread safety.
- `NewController`'s wiring (controller.go:88-113) is not modelled: scheme registration, the event broadcaster, and listers and informers. The constructor only sets the fields.
- Logging is side-channel output and is left out: `fmt.Println`, `klog` and `utilruntime.HandleError`.
- Read caches have no errors of their own. A lister error other than NotFound in `syncHandler` is the `jobLister` or `deploymentLister` fault flag. In `handleObject` every lister error counts as absence, as in the code.
- The API server's reply is modelled only as far as the controller reads it: the stored spec with the replica count defaulted, and the status. UID, resourceVersion and other defaults it assigns are left out. `UpdateReply` takes the stored status to be the cached one.
- `MetaNamespaceKeyFunc`'s error path is left out: its callers here always pass an InferenceJob, so the function cannot fail.
- `MessageResourceExists` uses `%q`. Its escaping of special characters is left out, because Kubernetes names contain none.
- Go's `nil`-pointer panic at controller.go:302 is excluded by the requirement `ReplicasDefaulted`.
- `InferenceJobList` and `TypeMeta` from `types.go` are not used by the controller and are not modelled.
- A tombstone whose final state is not an object is logged and dropped (controller.go:372-377); `HandleObject` drops it too.
