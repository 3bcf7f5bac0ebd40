/** The apimachinery and client-go helpers the controller relies on: controller owner
    references (`GetControllerOf`, `IsControlledBy`, `NewControllerRef`) and the
    "namespace/name" work-queue keys (`MetaNamespaceKeyFunc`, `SplitMetaNamespaceKey`). */
module Meta {
  import opened Types
  import opened Strings

  const GROUP_VERSION := "samplecontroller.k8s.io/v1alpha1"
  const INFERENCE_JOB_KIND := "InferenceJob"

  /** `metav1.GetControllerOf`: the first owner reference whose `Controller` flag is set. */
  function ControllerOf(refs: seq<OwnerReference>): (r: Option<OwnerReference>)
    ensures r.Some? ==> r.value in refs && r.value.controller
    ensures r.None? <==> forall i :: 0 <= i < |refs| ==> !refs[i].controller
    ensures r.Some? ==> exists i :: 0 <= i < |refs| && refs[i] == r.value &&
                                    forall j :: 0 <= j < i ==> !refs[j].controller
  {
    if |refs| == 0 then None
    else if refs[0].controller then Some(refs[0])
    else
      var r := ControllerOf(refs[1..]);
      assert forall i :: 0 < i < |refs| ==> refs[i] == refs[1..][i - 1];
      r
  }

  /** `metav1.IsControlledBy`: the controller reference carries the owner's UID. */
  predicate IsControlledBy(obj: ObjectMeta, owner: ObjectMeta) {
    var ref := ControllerOf(obj.ownerReferences);
    ref.Some? && ref.value.uid == owner.uid
  }

  /** `metav1.NewControllerRef(job, SchemeGroupVersion.WithKind("InferenceJob"))`. */
  function NewControllerRef(owner: ObjectMeta): (ref: OwnerReference)
    ensures ref.controller && ref.blockOwnerDeletion
    ensures ref.kind == INFERENCE_JOB_KIND && ref.apiVersion == GROUP_VERSION
    ensures ref.name == owner.name && ref.uid == owner.uid
  {
    OwnerReference(GROUP_VERSION, INFERENCE_JOB_KIND, owner.name, owner.uid, true, true)
  }

  /** An object whose only owner reference is a controller reference to `owner` is controlled by it. */
  lemma SoleControllerRef(obj: ObjectMeta, owner: ObjectMeta)
    requires obj.ownerReferences == [NewControllerRef(owner)]
    ensures ControllerOf(obj.ownerReferences) == Some(NewControllerRef(owner))
    ensures IsControlledBy(obj, owner)
  {
  }

  /** `cache.MetaNamespaceKeyFunc`: "namespace/name", or just "name" in the empty namespace. */
  function MetaNamespaceKey(k: ObjectKey): string {
    if k.namespace != "" then k.namespace + "/" + k.name else k.name
  }

  /** `cache.SplitMetaNamespaceKey`: one piece is a name in the empty namespace, two pieces are
      namespace and name, anything else is an error (`None`). */
  function SplitKey(key: string): (r: Option<ObjectKey>)
    ensures r.Some? <==> |Split(key, '/')| <= 2
    ensures r.Some? <==> multiset(key)['/'] <= 1
    ensures r.Some? ==> '/' !in r.value.namespace && '/' !in r.value.name
    ensures r.Some? && '/' !in key ==> r.value == ObjectKey("", key)
  {
    var parts := Split(key, '/');
    SplitJoin(key, '/');
    SplitCount(key, '/');
    if |parts| == 1 then Some(ObjectKey("", parts[0]))
    else if |parts| == 2 then
      assert key == parts[0] + "/" + parts[1];
      Some(ObjectKey(parts[0], parts[1]))
    else None
  }

  /** Keys built by `MetaNamespaceKey` split back into the same namespace and name,
      for names without a '/' (Kubernetes names never contain one). */
  lemma KeyRoundTrip(k: ObjectKey)
    requires '/' !in k.namespace && '/' !in k.name
    ensures SplitKey(MetaNamespaceKey(k)) == Some(k)
  {
    if k.namespace != "" {
      assert MetaNamespaceKey(k) == Join([k.namespace, k.name], '/');
      JoinSplit([k.namespace, k.name], '/');
    } else {
      assert MetaNamespaceKey(k) == Join([k.name], '/');
      JoinSplit([k.name], '/');
    }
  }

  /** Conversely, a key that splits rebuilds to itself, except that a leading "/" (an explicitly
      empty namespace) is not restored. */
  lemma SplitKeyRebuilds(key: string)
    requires SplitKey(key).Some?
    requires SplitKey(key).value.namespace != "" || '/' !in key
    ensures MetaNamespaceKey(SplitKey(key).value) == key
  {
    SplitJoin(key, '/');
    var parts := Split(key, '/');
    if |parts| == 2 {
      assert Join(parts, '/') == parts[0] + "/" + parts[1];
    }
  }
}
