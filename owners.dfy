/** Owner resolution for Deployment notifications (`handleObject`, controller.go:361-402):
    which InferenceJob, if any, a changed or deleted Deployment sends back to the work queue. */
module Owners {
  import opened Types
  import opened Meta
  import opened Deployments

  /** What a notification callback receives: a live object, a deletion tombstone whose final
      state may or may not be an object, or something that is neither. */
  datatype Notification =
    | Live(obj: ObjectMeta)
    | Tombstone(last: Option<ObjectMeta>)
    | Garbage

  /** The object a notification carries, after unwrapping a tombstone. */
  function Unwrap(n: Notification): (r: Option<ObjectMeta>)
    ensures n.Garbage? || n == Tombstone(None) <==> r.None?
    ensures n.Live? ==> r == Some(n.obj)
    ensures n.Tombstone? ==> r == n.last
  {
    match n
    case Live(obj) => Some(obj)
    case Tombstone(last) => last
    case Garbage => None
  }

  /** The InferenceJob `handleObject` enqueues for `n`, if any. */
  function ResolveOwner(jobs: map<ObjectKey, InferenceJob>, n: Notification): (r: Option<InferenceJob>)
    ensures r.Some? ==> r.value in jobs.Values
  {
    match Unwrap(n)
    case None => None
    case Some(obj) =>
      match ControllerOf(obj.ownerReferences)
      case None => None
      case Some(ref) =>
        if ref.kind != INFERENCE_JOB_KIND then None
        else if ObjectKey(obj.namespace, ref.name) !in jobs then None
        else Some(jobs[ObjectKey(obj.namespace, ref.name)])
  }

  /** An owner is found exactly when the unwrapped object's controller reference has kind
      InferenceJob and names a job cached in the object's namespace; that job is the owner. */
  lemma ResolveOwnerIff(jobs: map<ObjectKey, InferenceJob>, n: Notification)
    ensures ResolveOwner(jobs, n).Some? <==>
            exists obj, ref :: Unwrap(n) == Some(obj) && ControllerOf(obj.ownerReferences) == Some(ref) &&
                               ref.kind == INFERENCE_JOB_KIND && ObjectKey(obj.namespace, ref.name) in jobs
    ensures ResolveOwner(jobs, n).Some? ==>
            var obj := Unwrap(n).value;
            ResolveOwner(jobs, n).value == jobs[ObjectKey(obj.namespace, ControllerOf(obj.ownerReferences).value.name)]
  {
  }

  /** Garbage and tombstones that hold no object are dropped. */
  lemma UndecodableDropped(jobs: map<ObjectKey, InferenceJob>, n: Notification)
    requires n.Garbage? || n == Tombstone(None)
    ensures ResolveOwner(jobs, n) == None
  {
  }

  /** A tombstone resolves like the live object it wraps. */
  lemma TombstoneUnwrapped(jobs: map<ObjectKey, InferenceJob>, obj: ObjectMeta)
    ensures ResolveOwner(jobs, Tombstone(Some(obj))) == ResolveOwner(jobs, Live(obj))
  {
  }

  /** Objects without a controller reference, controlled by another kind, or whose controlling
      job is not cached (orphans) are dropped. */
  lemma UnownedDropped(jobs: map<ObjectKey, InferenceJob>, obj: ObjectMeta)
    requires || ControllerOf(obj.ownerReferences).None?
             || ControllerOf(obj.ownerReferences).value.kind != INFERENCE_JOB_KIND
             || ObjectKey(obj.namespace, ControllerOf(obj.ownerReferences).value.name) !in jobs
    ensures ResolveOwner(jobs, Live(obj)) == None
    ensures ResolveOwner(jobs, Tombstone(Some(obj))) == None
  {
  }

  /** A Deployment built by `newDeployment(job)`, live or deleted, resolves back to `job` while
      the job is cached under its own key. */
  lemma NewDeploymentResolvesToJob(jobs: map<ObjectKey, InferenceJob>, job: InferenceJob)
    requires KeyOf(job.meta) in jobs && jobs[KeyOf(job.meta)] == job
    ensures ResolveOwner(jobs, Live(NewDeployment(job).meta)) == Some(job)
    ensures ResolveOwner(jobs, Tombstone(Some(NewDeployment(job).meta))) == Some(job)
  {
  }
}
