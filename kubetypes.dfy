/** The Kubernetes object records the controller builds and applies (core/v1, apps/v1,
    networking/v1), reduced to the fields it sets, and controller-runtime's owner-reference helper. */
module KubeTypes {
  import opened Base
  import opened Api

  datatype TypeMeta = TypeMeta(apiVersion: string, kind: string)

  datatype OwnerRef = OwnerRef(
    apiVersion: string,
    kind: string,
    name: string,
    uid: string,
    controller: bool,
    blockOwnerDeletion: bool)

  datatype ObjectMeta = ObjectMeta(
    name: string,
    namespace: string,
    labels: map<string, string>,
    ownerRefs: seq<OwnerRef>)

  /** corev1.SecretKeySelector: a key of a named Secret. */
  datatype SecretKeyRef = SecretKeyRef(secretName: string, key: string)

  /** corev1.EnvVar: either an inline `value` or a `valueFrom` reference (then `value` is empty). */
  datatype EnvVar = EnvVar(name: string, value: string, valueFrom: Option<SecretKeyRef>)

  datatype Container = Container(name: string, image: string, env: seq<EnvVar>)

  datatype Deployment = Deployment(
    typeMeta: TypeMeta,
    meta: ObjectMeta,
    replicas: Int32,
    selector: map<string, string>,
    templateLabels: map<string, string>,
    containers: seq<Container>)

  datatype ServicePort = ServicePort(name: string, port: Int32, protocol: string, targetPort: int)

  datatype Service = Service(
    typeMeta: TypeMeta,
    meta: ObjectMeta,
    ports: seq<ServicePort>,
    selector: map<string, string>,
    serviceType: string)

  datatype IngressPath = IngressPath(path: string, pathType: string, serviceName: string, servicePort: Int32)

  datatype IngressRule = IngressRule(host: string, paths: seq<IngressPath>)

  datatype Ingress = Ingress(typeMeta: TypeMeta, meta: ObjectMeta, rules: seq<IngressRule>)

  datatype Secret = Secret(typeMeta: TypeMeta, meta: ObjectMeta, stringData: map<string, string>)

  /** client.Object, restricted to the four kinds the controller emits. */
  datatype KubeObject =
    | SecretObject(secret: Secret)
    | DeploymentObject(deployment: Deployment)
    | ServiceObject(service: Service)
    | IngressObject(ingress: Ingress)

  /** runtime.Scheme, reduced to the one fact SetControllerReference needs from it. */
  datatype Scheme = Scheme(knowsAzureApp: bool)

  /** client.PatchOption values used with server-side apply. */
  datatype PatchOption = ForceOwnership | FieldOwner(name: string)

  /** context.Context: an opaque value passed along and stored. */
  datatype Context = Context(tag: string)

  /** The controller owner reference an AzureApp puts on the objects derived from it. */
  function ControllerRef(owner: AzureApp): OwnerRef {
    OwnerRef(GroupVersion, "AzureApp", owner.meta.name, owner.meta.uid, true, true)
  }

  /** ctrl.SetControllerReference(owner, obj, scheme) on an object whose metadata carries no owner
      yet: it fails when the scheme cannot name the owner's kind, and otherwise makes the owner the
      object's controller. (With no owner present, upserting the reference is an append.) */
  function SetControllerReference(owner: AzureApp, meta: ObjectMeta, scheme: Scheme): (r: Result<ObjectMeta>)
    ensures r.Ok? <==> scheme.knowsAzureApp
    ensures r.Ok? ==>
      && r.value.ownerRefs == meta.ownerRefs + [ControllerRef(owner)]
      && r.value == meta.(ownerRefs := r.value.ownerRefs)
      && r.value.ownerRefs[|meta.ownerRefs|].controller
      && r.value.ownerRefs[|meta.ownerRefs|].uid == owner.meta.uid
  {
    if !scheme.knowsAzureApp then
      Err(NewError("no kind is registered for the type v0alpha1.AzureApp in scheme"))
    else
      Ok(meta.(ownerRefs := meta.ownerRefs + [ControllerRef(owner)]))
  }
}
