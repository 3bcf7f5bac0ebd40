/** What one `syncHandler(key)` does (controller.go:247-337), as a function of the two read
    caches, the key and which external calls fail, together with the properties of the
    reconcile step. `SampleController.Controller.SyncHandler` is proved to issue exactly
    these actions and return exactly this error. */
module Sync {
  import opened Types
  import opened Meta
  import opened Deployments

  const SUCCESS_SYNCED := "Synced"
  const ERR_RESOURCE_EXISTS := "ErrResourceExists"
  const MESSAGE_RESOURCE_SYNCED := "InferenceJob synced successfully"

  /** `fmt.Sprintf(MessageResourceExists, name)`; `%q` adds no escapes to a Kubernetes name. */
  function MessageResourceExists(name: string): (msg: string)
    ensures |msg| > 10 + |name|
    ensures msg[..10] == "Resource \"" && msg[10..10 + |name|] == name && msg[10 + |name|] == '"'
  {
    var prefix := "Resource " + ['"'];
    var m := prefix + name + ['"'] + " already exists and is not managed by InferenceJob";
    assert m[..10] == prefix && m[10..10 + |name|] == name;
    m
  }

  /** The InferenceJob and Deployment listers. */
  datatype Caches = Caches(jobs: map<ObjectKey, InferenceJob>, deployments: map<ObjectKey, Deployment>)

  datatype EventType = Normal | Warning

  /** One call to the write API or to the event recorder, in the order issued. */
  datatype Action =
    | Create(deployment: Deployment)
    | Update(deployment: Deployment)
    | UpdateJob(job: InferenceJob)
    | Event(involved: ObjectKey, eventType: EventType, reason: string, message: string)

  /** Which calls of one sync fail: a lister error other than NotFound, or a failed write. */
  datatype Faults = Faults(
    jobLister: bool,
    deploymentLister: bool,
    create: bool,
    update: bool,
    updateStatus: bool)

  /** The non-nil errors `syncHandler` returns. */
  datatype SyncError =
    | JobListerError
    | DeploymentListerError
    | CreateFailed
    | UpdateFailed
    | StatusUpdateFailed
    | ResourceExists(message: string)

  /** The calls one sync issues and the error it returns (`None` is a nil error). */
  datatype SyncRun = SyncRun(actions: seq<Action>, err: Option<SyncError>)

  function SyncedEvent(job: InferenceJob): Action {
    Event(KeyOf(job.meta), Normal, SUCCESS_SYNCED, MESSAGE_RESOURCE_SYNCED)
  }

  function ConflictEvent(job: InferenceJob, d: Deployment): Action {
    Event(KeyOf(job.meta), Warning, ERR_RESOURCE_EXISTS, MessageResourceExists(d.meta.name))
  }

  /** The copy passed to the status write: the job with `AvailableReplicas` taken from `d`. */
  function StatusCopy(job: InferenceJob, d: Deployment): (copy: InferenceJob)
    ensures copy.meta == job.meta && copy.spec == job.spec
    ensures copy.status.availableReplicas == d.status.availableReplicas
  {
    job.(status := InferenceJobStatus(d.status.availableReplicas))
  }

  /** Whether the replica count is managed and differs (controller.go:302). */
  predicate NeedsScale(job: InferenceJob, d: Deployment)
    requires d.spec.replicas.Some?
  {
    job.spec.replicas.Some? && job.spec.replicas.value != d.spec.replicas.value
  }

  /** `syncHandler(key)`. */
  function Reconcile(c: Caches, key: string, f: Faults): SyncRun
    requires ReplicasDefaulted(c.deployments)
  {
    match SplitKey(key)
    case None => SyncRun([], None)
    case Some(k) =>
      if f.jobLister then SyncRun([], Some(JobListerError))
      else if k !in c.jobs then SyncRun([], None)
      else ReconcileJob(c, c.jobs[k], f)
  }

  /** From the check of `DeploymentName` on (controller.go:268-323). */
  function ReconcileJob(c: Caches, job: InferenceJob, f: Faults): SyncRun
    requires ReplicasDefaulted(c.deployments)
  {
    if job.spec.deploymentName == "" then SyncRun([], None)
    else if f.deploymentLister then SyncRun([], Some(DeploymentListerError))
    else
      var dk := TargetKey(job);
      if dk !in c.deployments then
        var d := NewDeployment(job);
        if f.create then SyncRun([Create(d)], Some(CreateFailed))
        else
          var rest := Converge(job, ServerDefaults(d), f);
          SyncRun([Create(d)] + rest.actions, rest.err)
      else Converge(job, c.deployments[dk], f)
  }

  /** The ownership check and the scaling step (controller.go:293-323). */
  function Converge(job: InferenceJob, d: Deployment, f: Faults): SyncRun
    requires d.spec.replicas.Some?
  {
    if !IsControlledBy(d.meta, job.meta) then
      SyncRun([ConflictEvent(job, d)], Some(ResourceExists(MessageResourceExists(d.meta.name))))
    else if NeedsScale(job, d) then
      var u := NewDeployment(job);
      if f.update then SyncRun([Update(u)], Some(UpdateFailed))
      else
        var rest := MirrorStatus(job, UpdateReply(u, d), f);
        SyncRun([Update(u)] + rest.actions, rest.err)
    else MirrorStatus(job, d, f)
  }

  /** `updateInferenceJobStatus` and the final event (controller.go:316-336). */
  function MirrorStatus(job: InferenceJob, d: Deployment, f: Faults): SyncRun {
    var copy := StatusCopy(job, d);
    if f.updateStatus then SyncRun([UpdateJob(copy)], Some(StatusUpdateFailed))
    else SyncRun([UpdateJob(copy), SyncedEvent(job)], None)
  }

  /** The cache key of the Deployment a job targets. */
  function TargetKey(job: InferenceJob): ObjectKey {
    ObjectKey(job.meta.namespace, job.spec.deploymentName)
  }

  // ---------------------------------------------------------------------------------------
  // The branches of the reconcile step

  /** The job a key refers to, when the key splits and the job is cached. */
  predicate JobFound(c: Caches, key: string) {
    SplitKey(key).Some? && SplitKey(key).value in c.jobs
  }

  /** The keys a sync drops without retry: a malformed key, a job that is no longer cached,
      a job without a target name. */
  predicate Dropped(c: Caches, key: string, f: Faults) {
    || SplitKey(key).None?
    || (!f.jobLister && !JobFound(c, key))
    || (!f.jobLister && c.jobs[SplitKey(key).value].spec.deploymentName == "")
  }

  /** A sync issues nothing and returns nil exactly when it drops the key: every other path
      either fails or writes the job's status. */
  lemma SilentIffDropped(c: Caches, key: string, f: Faults)
    requires ReplicasDefaulted(c.deployments)
    ensures Reconcile(c, key, f) == SyncRun([], None) <==> Dropped(c, key, f)
  {
  }

  /** A lister error other than NotFound is returned, with nothing issued (controller.go:265). */
  lemma JobListerErrorReturned(c: Caches, key: string, f: Faults)
    requires ReplicasDefaulted(c.deployments)
    requires SplitKey(key).Some? && f.jobLister
    ensures Reconcile(c, key, f) == SyncRun([], Some(JobListerError))
  {
  }

  /** The key splits, the job is cached and named a target, and both listers answer. */
  predicate ReachesLookup(c: Caches, key: string, f: Faults) {
    && JobFound(c, key) && !f.jobLister && !f.deploymentLister
    && c.jobs[SplitKey(key).value].spec.deploymentName != ""
  }

  /** No cached Deployment: exactly one `Create(newDeployment(job))`. If it fails, the error is
      returned and nothing else is issued; otherwise the created Deployment is owned and has the
      job's replica count, so no Update follows, only the status write and the Synced event. */
  lemma CreateWhenAbsent(c: Caches, key: string, f: Faults)
    requires ReplicasDefaulted(c.deployments)
    requires ReachesLookup(c, key, f)
    requires TargetKey(c.jobs[SplitKey(key).value]) !in c.deployments
    ensures var job := c.jobs[SplitKey(key).value];
            var run := Reconcile(c, key, f);
            var created := Create(NewDeployment(job));
            var copy := StatusCopy(job, ServerDefaults(NewDeployment(job)));
            && (f.create ==> run == SyncRun([created], Some(CreateFailed)))
            && (!f.create && f.updateStatus ==>
                  run == SyncRun([created, UpdateJob(copy)], Some(StatusUpdateFailed)))
            && (!f.create && !f.updateStatus ==>
                  run == SyncRun([created, UpdateJob(copy), SyncedEvent(job)], None))
            && copy.status.availableReplicas == 0
  {
  }

  /** A Deployment-lister error other than NotFound is returned, with nothing issued
      (controller.go:278, 287-288). */
  lemma DeploymentListerErrorReturned(c: Caches, key: string, f: Faults)
    requires ReplicasDefaulted(c.deployments)
    requires JobFound(c, key) && !f.jobLister && f.deploymentLister
    requires c.jobs[SplitKey(key).value].spec.deploymentName != ""
    ensures Reconcile(c, key, f) == SyncRun([], Some(DeploymentListerError))
  {
  }

  /** A cached Deployment that this job does not control: a Warning `ErrResourceExists` event
      and a failure, with no write at all (controller.go:293-297). */
  lemma ConflictWhenNotControlled(c: Caches, key: string, f: Faults)
    requires ReplicasDefaulted(c.deployments)
    requires ReachesLookup(c, key, f)
    requires TargetKey(c.jobs[SplitKey(key).value]) in c.deployments
    requires !IsControlledBy(c.deployments[TargetKey(c.jobs[SplitKey(key).value])].meta,
                             c.jobs[SplitKey(key).value].meta)
    ensures var job := c.jobs[SplitKey(key).value];
            var d := c.deployments[TargetKey(job)];
            var msg := MessageResourceExists(d.meta.name);
            Reconcile(c, key, f) == SyncRun([Event(KeyOf(job.meta), Warning, ERR_RESOURCE_EXISTS, msg)],
                                            Some(ResourceExists(msg)))
  {
  }

  /** A cached Deployment that this job controls: an `Update(newDeployment(job))` is issued iff
      the job's replica count is set and differs; then, unless that update fails, the job's copy
      with the Deployment's `AvailableReplicas` is written and, only if that write succeeds, the
      Synced event is recorded. */
  lemma ConvergeOwned(c: Caches, key: string, f: Faults)
    requires ReplicasDefaulted(c.deployments)
    requires ReachesLookup(c, key, f)
    requires TargetKey(c.jobs[SplitKey(key).value]) in c.deployments
    requires IsControlledBy(c.deployments[TargetKey(c.jobs[SplitKey(key).value])].meta,
                            c.jobs[SplitKey(key).value].meta)
    ensures var job := c.jobs[SplitKey(key).value];
            var d := c.deployments[TargetKey(job)];
            var run := Reconcile(c, key, f);
            var scale := job.spec.replicas.Some? && job.spec.replicas != d.spec.replicas;
            var scaled := if scale then [Update(NewDeployment(job))] else [];
            var copy := job.(status := InferenceJobStatus(d.status.availableReplicas));
            && (scale && f.update ==> run == SyncRun(scaled, Some(UpdateFailed)))
            && (!(scale && f.update) && f.updateStatus ==>
                  run == SyncRun(scaled + [UpdateJob(copy)], Some(StatusUpdateFailed)))
            && (!(scale && f.update) && !f.updateStatus ==>
                  run == SyncRun(scaled + [UpdateJob(copy), SyncedEvent(job)], None))
  {
  }

  // ---------------------------------------------------------------------------------------
  // Properties of every sync

  /** The Synced event is recorded only as the last call, right after a status write, and only
      when the sync succeeds. */
  lemma SyncedOnlyAfterStatusWrite(c: Caches, key: string, f: Faults, i: nat)
    requires ReplicasDefaulted(c.deployments)
    requires i < |Reconcile(c, key, f).actions|
    requires Reconcile(c, key, f).actions[i].Event? && Reconcile(c, key, f).actions[i].eventType == Normal
    ensures var run := Reconcile(c, key, f);
            && i == |run.actions| - 1 && i > 0 && run.actions[i - 1].UpdateJob?
            && run.err.None? && !f.updateStatus
  {
    if SplitKey(key).Some? && !f.jobLister && SplitKey(key).value in c.jobs {
      var job := c.jobs[SplitKey(key).value];
      if job.spec.deploymentName != "" && !f.deploymentLister && TargetKey(job) in c.deployments {
        assert c.deployments[TargetKey(job)].spec.replicas.Some?;
      }
    }
  }

  /** The status write sends the cached job with only its status changed, and a failed status
      write is returned as a failure. */
  lemma StatusWriteIsCopy(c: Caches, key: string, f: Faults, i: nat)
    requires ReplicasDefaulted(c.deployments)
    requires i < |Reconcile(c, key, f).actions|
    requires Reconcile(c, key, f).actions[i].UpdateJob?
    ensures JobFound(c, key)
    ensures var copy := Reconcile(c, key, f).actions[i].job;
            var job := c.jobs[SplitKey(key).value];
            copy.meta == job.meta && copy.spec == job.spec
    ensures f.updateStatus ==> Reconcile(c, key, f).err == Some(StatusUpdateFailed)
  {
    if SplitKey(key).Some? && !f.jobLister && SplitKey(key).value in c.jobs {
      var job := c.jobs[SplitKey(key).value];
      if job.spec.deploymentName != "" && !f.deploymentLister && TargetKey(job) in c.deployments {
        assert c.deployments[TargetKey(job)].spec.replicas.Some?;
      }
    }
  }

  // ---------------------------------------------------------------------------------------
  // Level-triggered idempotence: a sync after the caches have caught up writes no Deployment

  /** The caches once the API server has stored `a` and the informers have delivered it. */
  function Apply(c: Caches, a: Action): Caches {
    match a
    case Create(d) => c.(deployments := c.deployments[KeyOf(d.meta) := ServerDefaults(d)])
    case Update(d) =>
      if KeyOf(d.meta) in c.deployments
      then c.(deployments := c.deployments[KeyOf(d.meta) := UpdateReply(d, c.deployments[KeyOf(d.meta)])])
      else c
    case UpdateJob(j) => c.(jobs := c.jobs[KeyOf(j.meta) := j])
    case Event(_, _, _, _) => c
  }

  function ApplyAll(c: Caches, actions: seq<Action>): Caches
    decreases |actions|
  {
    if |actions| == 0 then c else ApplyAll(Apply(c, actions[0]), actions[1..])
  }

  /** Stored writes keep both cache invariants. */
  lemma {:induction false} ApplyAllKeepsInvariants(c: Caches, actions: seq<Action>)
    requires ReplicasDefaulted(c.deployments) && JobCacheConsistent(c.jobs)
    ensures ReplicasDefaulted(ApplyAll(c, actions).deployments)
    ensures JobCacheConsistent(ApplyAll(c, actions).jobs)
    decreases |actions|
  {
    if |actions| > 0 {
      var c1 := Apply(c, actions[0]);
      assert ReplicasDefaulted(c1.deployments);
      assert JobCacheConsistent(c1.jobs);
      ApplyAllKeepsInvariants(c1, actions[1..]);
    }
  }

  predicate NoDeploymentWrites(actions: seq<Action>) {
    forall i :: 0 <= i < |actions| ==> !actions[i].Create? && !actions[i].Update?
  }

  /** Storing a write followed by an event is storing the write. */
  lemma EndsWithEvent(c: Caches, a: Action, e: Action)
    requires e.Event?
    ensures ApplyAll(c, [a, e]) == Apply(c, a)
  {
    assert [a, e][1..] == [e];
    assert ApplyAll(Apply(c, a), [e]) == ApplyAll(Apply(Apply(c, a), e), []);
  }

  /** The caches a successful sync leaves once its writes are stored, relative to the job. */
  lemma {:induction false} SuccessfulSyncConverges(c: Caches, key: string, f: Faults)
    requires ReplicasDefaulted(c.deployments) && JobCacheConsistent(c.jobs)
    requires Reconcile(c, key, f).err.None?
    requires ReachesLookup(c, key, f)
    ensures var c' := ApplyAll(c, Reconcile(c, key, f).actions);
            var job := c.jobs[SplitKey(key).value];
            && SplitKey(key).value in c'.jobs
            && c'.jobs[SplitKey(key).value].meta == job.meta
            && c'.jobs[SplitKey(key).value].spec == job.spec
            && TargetKey(job) in c'.deployments
            && IsControlledBy(c'.deployments[TargetKey(job)].meta, job.meta)
            && c'.deployments[TargetKey(job)].spec.replicas.Some?
            && !NeedsScale(job, c'.deployments[TargetKey(job)])
  {
    var k := SplitKey(key).value;
    var job := c.jobs[k];
    var dk := TargetKey(job);
    var nd := NewDeployment(job);
    assert KeyOf(job.meta) == k;
    assert KeyOf(nd.meta) == dk;
    var copy: InferenceJob;
    if dk !in c.deployments {
      var d := ServerDefaults(nd);
      assert IsControlledBy(d.meta, job.meta) && !NeedsScale(job, d);
      copy := StatusCopy(job, d);
      assert Reconcile(c, key, f).actions == [Create(nd), UpdateJob(copy), SyncedEvent(job)];
      var c1 := Apply(c, Create(nd));
      assert c1.deployments[dk] == d;
      var c2 := Apply(c1, UpdateJob(copy));
      EndsWithEvent(c1, UpdateJob(copy), SyncedEvent(job));
      assert ApplyAll(c, [Create(nd), UpdateJob(copy), SyncedEvent(job)]) == c2 by {
        assert [Create(nd), UpdateJob(copy), SyncedEvent(job)][1..] == [UpdateJob(copy), SyncedEvent(job)];
      }
    } else {
      var d := c.deployments[dk];
      assert d.spec.replicas.Some?;
      assert IsControlledBy(d.meta, job.meta);
      copy := StatusCopy(job, d);
      if NeedsScale(job, d) {
        var u := UpdateReply(nd, d);
        assert u.spec.replicas == job.spec.replicas;
        assert IsControlledBy(u.meta, job.meta);
        assert Reconcile(c, key, f).actions == [Update(nd), UpdateJob(copy), SyncedEvent(job)];
        var c1 := Apply(c, Update(nd));
        assert c1.deployments[dk] == u;
        var c2 := Apply(c1, UpdateJob(copy));
        EndsWithEvent(c1, UpdateJob(copy), SyncedEvent(job));
        assert ApplyAll(c, [Update(nd), UpdateJob(copy), SyncedEvent(job)]) == c2 by {
          assert [Update(nd), UpdateJob(copy), SyncedEvent(job)][1..] == [UpdateJob(copy), SyncedEvent(job)];
        }
      } else {
        assert Reconcile(c, key, f).actions == [UpdateJob(copy), SyncedEvent(job)];
        var c2 := Apply(c, UpdateJob(copy));
        EndsWithEvent(c, UpdateJob(copy), SyncedEvent(job));
      }
    }
  }

  /** A sync of a job whose Deployment is cached, controlled by the job and already at the
      job's replica count (or the job leaves the count alone) issues no Create and no Update. */
  lemma ConvergedWritesNoDeployment(c: Caches, key: string, f: Faults)
    requires ReplicasDefaulted(c.deployments)
    requires JobFound(c, key)
    requires TargetKey(c.jobs[SplitKey(key).value]) in c.deployments
    requires IsControlledBy(c.deployments[TargetKey(c.jobs[SplitKey(key).value])].meta,
                            c.jobs[SplitKey(key).value].meta)
    requires !NeedsScale(c.jobs[SplitKey(key).value], c.deployments[TargetKey(c.jobs[SplitKey(key).value])])
    ensures NoDeploymentWrites(Reconcile(c, key, f).actions)
  {
  }

  /** Idempotence: once the writes of a sync that returned nil are stored in the caches, syncing
      the same key again issues no Create and no Update, whatever fails the second time. */
  lemma ResyncWritesNoDeployment(c: Caches, key: string, f1: Faults, f2: Faults)
    requires ReplicasDefaulted(c.deployments) && JobCacheConsistent(c.jobs)
    requires Reconcile(c, key, f1).err.None?
    ensures var c' := ApplyAll(c, Reconcile(c, key, f1).actions);
            ReplicasDefaulted(c'.deployments) && NoDeploymentWrites(Reconcile(c', key, f2).actions)
  {
    var run := Reconcile(c, key, f1);
    var c' := ApplyAll(c, run.actions);
    ApplyAllKeepsInvariants(c, run.actions);
    if Dropped(c, key, f1) {
      SilentIffDropped(c, key, f1);
      assert c' == c;
      SilentIffDropped(c, key, f2);
      assert Dropped(c, key, f2) || Reconcile(c, key, f2).actions == [];
    } else {
      SuccessfulSyncConverges(c, key, f1);
      ConvergedWritesNoDeployment(c', key, f2);
    }
  }
}
