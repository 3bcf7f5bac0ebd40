/** The objects the controller reads and writes: the InferenceJob custom resource
    (pkg/apis/samplecontroller/v1alpha1/types.go) and the parts of a Kubernetes
    Deployment and of object metadata that the controller touches. */
module Types {

  datatype Option<T> = None | Some(value: T) {
    function GetOr(default: T): T {
      if Some? then value else default
    }
  }

  /** Go's `int32`. */
  newtype int32 = x: int | -0x8000_0000 <= x < 0x8000_0000

  /** (namespace, name): the identity of an object in a cache. */
  datatype ObjectKey = ObjectKey(namespace: string, name: string)

  /** A metav1.OwnerReference; the `*bool` fields are `false` when nil. */
  datatype OwnerReference = OwnerReference(
    apiVersion: string,
    kind: string,
    name: string,
    uid: string,
    controller: bool,
    blockOwnerDeletion: bool)

  /** The metav1.ObjectMeta fields the controller reads or sets. */
  datatype ObjectMeta = ObjectMeta(
    name: string,
    namespace: string,
    uid: string,
    resourceVersion: string,
    ownerReferences: seq<OwnerReference>)

  datatype InferenceJobSpec = InferenceJobSpec(
    deploymentName: string,
    replicas: Option<int32>,
    imageToDeploy: string)

  datatype InferenceJobStatus = InferenceJobStatus(availableReplicas: int32)

  datatype InferenceJob = InferenceJob(
    meta: ObjectMeta,
    spec: InferenceJobSpec,
    status: InferenceJobStatus)

  datatype Container = Container(name: string, image: string)

  datatype PodTemplateSpec = PodTemplateSpec(
    labels: map<string, string>,
    containers: seq<Container>)

  datatype DeploymentSpec = DeploymentSpec(
    replicas: Option<int32>,
    selector: map<string, string>,
    template: PodTemplateSpec)

  datatype DeploymentStatus = DeploymentStatus(availableReplicas: int32)

  datatype Deployment = Deployment(
    meta: ObjectMeta,
    spec: DeploymentSpec,
    status: DeploymentStatus)

  /** The key under which an object with this metadata is cached. */
  function KeyOf(meta: ObjectMeta): ObjectKey {
    ObjectKey(meta.namespace, meta.name)
  }

  /** The read caches (listers) are indexed by each object's own namespace and name. */
  ghost predicate JobCacheConsistent(jobs: map<ObjectKey, InferenceJob>) {
    forall k :: k in jobs ==> KeyOf(jobs[k].meta) == k
  }
}
