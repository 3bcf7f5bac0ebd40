/** The controller (controller.go): the event handlers that feed the work queue, the owner
    lookup, one worker step around a sync, and the sync itself, which issues its writes to
    the API (and its events to the recorder) in order into `writes`. */
module SampleController {
  import opened Types
  import opened Meta
  import opened Deployments
  import opened Sync
  import opened Owners
  import opened WorkQueue

  class Controller {
    /** The InferenceJob lister: read-only here, filled by its informer. */
    var jobs: map<ObjectKey, InferenceJob>
    /** The Deployment lister: read-only here, filled by its informer. */
    var deployments: map<ObjectKey, Deployment>
    /** Every write API call and recorded event, in order. */
    var writes: seq<Action>
    const queue: RateLimitingQueue

    /** Wiring done by `NewController`: empty queue, nothing written yet. */
    constructor (jobs: map<ObjectKey, InferenceJob>, deployments: map<ObjectKey, Deployment>)
      ensures this.jobs == jobs && this.deployments == deployments && writes == []
      ensures fresh(queue) && queue.pending == {} && queue.processing == {} && !queue.shuttingDown
      ensures queue.waiting == {} && queue.requeues == map[] && queue.calls == []
    {
      this.jobs := jobs;
      this.deployments := deployments;
      writes := [];
      queue := new RateLimitingQueue();
    }

    function View(): Caches
      reads this
    {
      Caches(jobs, deployments)
    }

    // -------------------------------------------------------------------------------------
    // Write API and event recorder

    /** `Deployments(ns).Create(d)`: the stored object, or `None` when the call fails. */
    method CreateDeployment(d: Deployment, fail: bool) returns (reply: Option<Deployment>)
      modifies this`writes
      ensures writes == old(writes) + [Create(d)]
      ensures reply == if fail then None else Some(ServerDefaults(d))
    {
      writes := writes + [Create(d)];
      reply := if fail then None else Some(ServerDefaults(d));
    }

    /** `Deployments(ns).Update(d)` over the stored `current`: the stored object, or `None`. */
    method UpdateDeployment(d: Deployment, current: Deployment, fail: bool) returns (reply: Option<Deployment>)
      modifies this`writes
      ensures writes == old(writes) + [Update(d)]
      ensures reply == if fail then None else Some(UpdateReply(d, current))
    {
      writes := writes + [Update(d)];
      reply := if fail then None else Some(UpdateReply(d, current));
    }

    /** `recorder.Event(job, type, reason, message)`: fire and forget. */
    method RecordEvent(job: InferenceJob, eventType: EventType, reason: string, message: string)
      modifies this`writes
      ensures writes == old(writes) + [Event(KeyOf(job.meta), eventType, reason, message)]
    {
      writes := writes + [Event(KeyOf(job.meta), eventType, reason, message)];
    }

    /** `updateInferenceJobStatus`: writes a copy of the job whose `AvailableReplicas` is the
        Deployment's; the cached job itself is left alone. */
    method UpdateInferenceJobStatus(job: InferenceJob, d: Deployment, fail: bool) returns (ok: bool)
      modifies this`writes
      ensures writes == old(writes) + [UpdateJob(StatusCopy(job, d))]
      ensures ok == !fail
    {
      var copy := job;
      copy := copy.(status := copy.status.(availableReplicas := d.status.availableReplicas));
      writes := writes + [UpdateJob(copy)];
      ok := !fail;
    }

    // -------------------------------------------------------------------------------------
    // The sync

    /** `syncHandler(key)`: issues exactly the calls of `Reconcile` and returns its error; the
        lemmas of module Sync say what those are. The caches are not modified. */
    method SyncHandler(key: string, f: Faults) returns (err: Option<SyncError>)
      requires ReplicasDefaulted(deployments)
      modifies this`writes
      ensures writes == old(writes) + Reconcile(View(), key, f).actions
      ensures err == Reconcile(View(), key, f).err
    {
      var split := SplitKey(key);
      if split.None? {
        return None;
      }
      var k := split.value;
      if f.jobLister {
        return Some(JobListerError);
      }
      if k !in jobs {
        return None;
      }
      var job := jobs[k];
      var deploymentName := job.spec.deploymentName;
      if deploymentName == "" {
        return None;
      }
      if f.deploymentLister {
        return Some(DeploymentListerError);
      }
      var dk := ObjectKey(job.meta.namespace, deploymentName);
      if dk !in deployments {
        var created := CreateDeployment(NewDeployment(job), f.create);
        if created.None? {
          return Some(CreateFailed);
        }
        err := SyncDeployment(job, created.value, f);
      } else {
        err := SyncDeployment(job, deployments[dk], f);
      }
    }

    /** The rest of `syncHandler` once the job's Deployment is known (controller.go:291-323):
        the calls of `Converge`. */
    method SyncDeployment(job: InferenceJob, deployment: Deployment, f: Faults) returns (err: Option<SyncError>)
      requires deployment.spec.replicas.Some?
      modifies this`writes
      ensures writes == old(writes) + Converge(job, deployment, f).actions
      ensures err == Converge(job, deployment, f).err
    {
      if !IsControlledBy(deployment.meta, job.meta) {
        var msg := MessageResourceExists(deployment.meta.name);
        RecordEvent(job, Warning, ERR_RESOURCE_EXISTS, msg);
        return Some(ResourceExists(msg));
      }
      var current := deployment;
      if job.spec.replicas.Some? && job.spec.replicas.value != current.spec.replicas.value {
        var updated := UpdateDeployment(NewDeployment(job), current, f.update);
        if updated.None? {
          return Some(UpdateFailed);
        }
        current := updated.value;
      }
      var ok := UpdateInferenceJobStatus(job, current, f.updateStatus);
      if !ok {
        return Some(StatusUpdateFailed);
      }
      RecordEvent(job, Normal, SUCCESS_SYNCED, MESSAGE_RESOURCE_SYNCED);
      return None;
    }

    // -------------------------------------------------------------------------------------
    // Feeding the queue

    /** `enqueueInferenceJob`: queues the job's "namespace/name" key. */
    method EnqueueInferenceJob(job: InferenceJob)
      modifies queue
      ensures queue.AddedOnly(KeyItem(MetaNamespaceKey(KeyOf(job.meta))))
    {
      queue.Add(KeyItem(MetaNamespaceKey(KeyOf(job.meta))));
    }

    /** `handleObject`: queues the key of the InferenceJob that controls the object, and
        nothing otherwise. */
    method HandleObject(n: Notification)
      modifies queue
      ensures ResolveOwner(jobs, n).None? ==> unchanged(queue)
      ensures ResolveOwner(jobs, n).Some? ==>
                queue.AddedOnly(KeyItem(MetaNamespaceKey(KeyOf(ResolveOwner(jobs, n).value.meta))))
    {
      var objectMeta: ObjectMeta;
      match n {
        case Garbage =>
          return;
        case Tombstone(last) =>
          if last.None? {
            return;
          }
          objectMeta := last.value;
        case Live(obj) =>
          objectMeta := obj;
      }
      var ownerRef := ControllerOf(objectMeta.ownerReferences);
      if ownerRef.Some? {
        if ownerRef.value.kind != INFERENCE_JOB_KIND {
          return;
        }
        var ownerKey := ObjectKey(objectMeta.namespace, ownerRef.value.name);
        if ownerKey !in jobs {
          return;
        }
        EnqueueInferenceJob(jobs[ownerKey]);
      }
    }

    /** InferenceJob informer, add and update: queue the (new) job. */
    method OnJobAdd(job: InferenceJob)
      modifies queue
      ensures queue.AddedOnly(KeyItem(MetaNamespaceKey(KeyOf(job.meta))))
    {
      EnqueueInferenceJob(job);
    }

    method OnJobUpdate(oldJob: InferenceJob, newJob: InferenceJob)
      modifies queue
      ensures queue.AddedOnly(KeyItem(MetaNamespaceKey(KeyOf(newJob.meta))))
    {
      EnqueueInferenceJob(newJob);
    }

    /** Deployment informer, add and delete: resolve the owner. */
    method OnDeploymentAdd(d: Deployment)
      modifies queue
      ensures ResolveOwner(jobs, Live(d.meta)).None? ==> unchanged(queue)
      ensures ResolveOwner(jobs, Live(d.meta)).Some? ==>
                queue.AddedOnly(KeyItem(MetaNamespaceKey(KeyOf(ResolveOwner(jobs, Live(d.meta)).value.meta))))
    {
      HandleObject(Live(d.meta));
    }

    method OnDeploymentDelete(n: Notification)
      modifies queue
      ensures ResolveOwner(jobs, n).None? ==> unchanged(queue)
      ensures ResolveOwner(jobs, n).Some? ==>
                queue.AddedOnly(KeyItem(MetaNamespaceKey(KeyOf(ResolveOwner(jobs, n).value.meta))))
    {
      HandleObject(n);
    }

    /** Deployment informer, update: a resync that delivers the same resource version is
        dropped before owner resolution. */
    method OnDeploymentUpdate(oldD: Deployment, newD: Deployment)
      modifies queue
      ensures oldD.meta.resourceVersion == newD.meta.resourceVersion ==> unchanged(queue)
      ensures oldD.meta.resourceVersion != newD.meta.resourceVersion ==>
                if ResolveOwner(jobs, Live(newD.meta)).None? then unchanged(queue)
                else queue.AddedOnly(KeyItem(MetaNamespaceKey(KeyOf(ResolveOwner(jobs, Live(newD.meta)).value.meta))))
    {
      if newD.meta.resourceVersion == oldD.meta.resourceVersion {
        return;
      }
      HandleObject(Live(newD.meta));
    }

    // -------------------------------------------------------------------------------------
    // One worker step

    /** Whether processing `item` ends in a retry: a string key whose sync failed. */
    predicate Retried(item: Item, f: Faults)
      reads this
      requires ReplicasDefaulted(deployments)
    {
      item.KeyItem? && Reconcile(View(), item.key, f).err.Some?
    }

    /** The calls a sync of `item` issues: none for an item that is not a string. */
    function SyncWrites(item: Item, f: Faults): seq<Action>
      reads this
      requires ReplicasDefaulted(deployments)
    {
      if item.KeyItem? then Reconcile(View(), item.key, f).actions else []
    }

    /** The closure `processNextWorkItem` runs on a handed-out item (controller.go:200-228):
        sync a string key, then `Forget` it or, when the sync fails, `AddRateLimited`; a
        non-string item is forgotten. The deferred `Done` is the last call. */
    method ProcessItem(item: Item, f: Faults)
      requires ReplicasDefaulted(deployments)
      modifies this`writes, queue
      ensures writes == old(writes) + SyncWrites(item, f)
      ensures var settle := if Retried(item, f) then AddRateLimitedCall(item) else ForgetCall(item);
              queue.calls == old(queue.calls) + [settle, DoneCall(item)]
      ensures Retried(item, f) ==>
                && queue.requeues == Bump(old(queue.requeues), item)
                && queue.waiting == (if old(queue.shuttingDown) then old(queue.waiting) else old(queue.waiting) + {item})
      ensures !Retried(item, f) ==>
                queue.requeues == old(queue.requeues) - {item} && queue.waiting == old(queue.waiting)
      ensures queue.pending == old(queue.pending) && queue.processing == old(queue.processing) - {item}
      ensures queue.shuttingDown == old(queue.shuttingDown)
    {
      match item {
        case NonString(_) =>
          queue.Forget(item);
        case KeyItem(key) =>
          var err := SyncHandler(key, f);
          if err.Some? {
            queue.AddRateLimited(item);
          } else {
            queue.Forget(item);
          }
      }
      queue.Done(item);
    }

    /** `processNextWorkItem`: `false` only when `Get` reports shutdown. Otherwise exactly one
        `Done` for the item, as the last call, preceded by `Forget` for a non-string item or a
        successful sync and by `AddRateLimited` (with no `Forget`) for a failed sync. */
    method ProcessNextWorkItem(f: Faults) returns (more: bool, ghost item: Item)
      requires queue.CanGet() && ReplicasDefaulted(deployments)
      modifies this`writes, queue
      ensures !more <==> old(queue.pending - queue.processing) == {}
      ensures !more ==> writes == old(writes) && queue.calls == old(queue.calls) + [GetShutdownCall]
      ensures !more ==> queue.requeues == old(queue.requeues) && queue.waiting == old(queue.waiting)
      ensures !more ==> queue.pending == old(queue.pending)
      ensures more ==> item in old(queue.pending) && item !in old(queue.processing)
      ensures more ==> writes == old(writes) + SyncWrites(item, f)
      ensures more ==>
                var settle := if Retried(item, f) then AddRateLimitedCall(item) else ForgetCall(item);
                queue.calls == old(queue.calls) + [GetCall(item), settle, DoneCall(item)]
      ensures more && Retried(item, f) ==>
                && queue.requeues == Bump(old(queue.requeues), item)
                && queue.waiting == (if old(queue.shuttingDown) then old(queue.waiting) else old(queue.waiting) + {item})
      ensures more && !Retried(item, f) ==>
                queue.requeues == old(queue.requeues) - {item} && queue.waiting == old(queue.waiting)
      ensures more ==> queue.pending == old(queue.pending) - {item}
      ensures queue.processing == old(queue.processing) && queue.shuttingDown == old(queue.shuttingDown)
    {
      var obj := queue.Get();
      if obj.None? {
        item := NonString(0);
        return false, item;
      }
      item := obj.value;
      assert queue.processing - {item} == old(queue.processing);
      assert queue.requeues == old(queue.requeues) && queue.waiting == old(queue.waiting);
      ProcessItem(obj.value, f);
      return true, item;
    }
  }
}
