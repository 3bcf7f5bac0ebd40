/** The Deployment an InferenceJob asks for (`newDeployment`, controller.go:407-446), and what
    the API server stores when that Deployment is written. */
module Deployments {
  import opened Types
  import opened Strings
  import opened Meta

  /** The replica count the API server fills in when a Deployment leaves it unset. */
  const DEFAULT_REPLICAS: int32 := 1

  /** `strings.Split(image, ":")[0]`: the image reference up to its first ':'. */
  function ContainerName(image: string): string {
    Split(image, ':')[0]
  }

  /** The container name is the longest ':'-free prefix of the image: the whole image when it
      has no ':', and otherwise the part just before its first ':'. */
  lemma ContainerNameIsPrefix(image: string)
    ensures ContainerName(image) <= image
    ensures ':' !in ContainerName(image)
    ensures ContainerName(image) == image <==> ':' !in image
    ensures ContainerName(image) != image ==> image[|ContainerName(image)|] == ':'
  {
    var parts := Split(image, ':');
    SplitJoin(image, ':');
    if |parts| > 1 {
      assert image == parts[0] + [':'] + Join(parts[1..], ':');
      assert image[|parts[0]|] == ':';
    }
  }

  /** The labels shared by the selector and the pod template. */
  function Labels(job: InferenceJob): (labels: map<string, string>)
    ensures labels.Keys == {"app", "controller"}
    ensures labels["app"] == job.spec.imageToDeploy && labels["controller"] == job.meta.name
  {
    map["app" := job.spec.imageToDeploy, "controller" := job.meta.name]
  }

  /** `newDeployment(job)`: named after the job's target, in the job's namespace, controlled by
      the job alone, with the job's replica count and one container running the job's image. */
  function NewDeployment(job: InferenceJob): (d: Deployment)
    ensures KeyOf(d.meta) == ObjectKey(job.meta.namespace, job.spec.deploymentName)
    ensures d.meta.ownerReferences == [NewControllerRef(job.meta)]
    ensures ControllerOf(d.meta.ownerReferences) == Some(NewControllerRef(job.meta))
    ensures IsControlledBy(d.meta, job.meta)
    ensures d.spec.replicas == job.spec.replicas
    ensures d.spec.selector == d.spec.template.labels == Labels(job)
    ensures |d.spec.template.containers| == 1
    ensures d.spec.template.containers[0].image == job.spec.imageToDeploy
    ensures d.spec.template.containers[0].name == ContainerName(job.spec.imageToDeploy)
    ensures d.status.availableReplicas == 0
  {
    SoleControllerRef(ObjectMeta(job.spec.deploymentName, job.meta.namespace, "", "",
                                 [NewControllerRef(job.meta)]), job.meta);
    Deployment(
      ObjectMeta(job.spec.deploymentName, job.meta.namespace, "", "", [NewControllerRef(job.meta)]),
      DeploymentSpec(
        job.spec.replicas,
        Labels(job),
        PodTemplateSpec(Labels(job), [Container(ContainerName(job.spec.imageToDeploy), job.spec.imageToDeploy)])),
      DeploymentStatus(0))
  }

  /** What the API server stores for a written Deployment: it defaults an unset replica count. */
  function ServerDefaults(d: Deployment): (s: Deployment)
    ensures s.spec.replicas.Some?
    ensures d.spec.replicas.Some? ==> s == d
    ensures s.meta == d.meta && s.status == d.status
  {
    d.(spec := d.spec.(replicas := Some(d.spec.replicas.GetOr(DEFAULT_REPLICAS))))
  }

  /** The object an `Update` returns: the sent spec, defaulted, keeping the stored status
      (an update of the main resource does not change status). */
  function UpdateReply(sent: Deployment, current: Deployment): (s: Deployment)
    ensures s.spec.replicas.Some? && s.meta == sent.meta && s.status == current.status
    ensures s.spec == ServerDefaults(sent).spec
  {
    ServerDefaults(sent).(status := current.status)
  }

  /** Every cached Deployment has its replica count set: the API server defaults it, and
      controller.go:302 dereferences it. */
  ghost predicate ReplicasDefaulted(deployments: map<ObjectKey, Deployment>) {
    forall k :: k in deployments ==> deployments[k].spec.replicas.Some?
  }
}
