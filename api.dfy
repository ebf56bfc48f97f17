/** The AzureApp custom resource (api/v0alpha1/azureapp_types.go) and its metadata. */
module Api {

  /** Go's int32. */
  type Int32 = x: int | -0x8000_0000 <= x < 0x8000_0000

  /** AzureAppSpec: the desired state written by the user. */
  datatype Spec = Spec(
    url: string,
    identifierUri: string,
    identifier: string,
    servingPort: Int32,
    containerImage: string,
    appRoles: seq<string>,
    envVars: map<string, string>,
    enableDatabase: bool)

  /** AzureAppStatus: the observed state the controller writes. */
  datatype Status = Status(deployment: string, provisioningState: string)

  /** The part of ObjectMeta the controller reads or writes. `deletionTimestampSet` is
      `!DeletionTimestamp.IsZero()`. */
  datatype AppMeta = AppMeta(
    name: string,
    namespace: string,
    uid: string,
    finalizers: seq<string>,
    deletionTimestampSet: bool)

  datatype AzureApp = AzureApp(meta: AppMeta, spec: Spec, status: Status)

  /** The key a reconcile request carries (req.NamespacedName). */
  datatype NamespacedName = NamespacedName(namespace: string, name: string)

  /** API group and version of the AzureApp kind. */
  const GroupVersion := "k8sapp.rdalbuquerque.dev/v0alpha1"
}
