# AzureApp operator: controller core in Dafny

The azureapp-operator is a Kubernetes operator. For each `AzureApp` custom resource it
provisions Azure resources with Terraform, creates a database user when the app asks for a
database, and then server-side applies four Kubernetes objects for the app: a Secret holding
the app's Azure credential, a Deployment, a NodePort Service and an Ingress. A finalizer named
`DestroyAzureResources` makes deletion of the resource run `terraform destroy` and delete the
remote Terraform state blob before the object goes away.

This project models one reconciliation pass and the helpers it calls:
- the Terraform client (working directory, rendered `main.tf`, var file, plan, apply, destroy,
  outputs, state-file deletion);
- the dependency layer (Terraform dependencies, the database user, the certificate lookup);
- the Kubernetes client (server-side apply of a list of objects, the status write);
- the desired objects, the finalizer logic, the previous-spec comparison that decides whether a
  pass runs, and the pass itself;
- the environment-driven settings (`SetConfig` filling the package-level `Config`, and
  `LoadConfig` returning a fresh value).

## How the model is built

- **Effects.** Every call the Go code makes to the API server, terraform-exec, the blob store,
  SQL, Key Vault, `os.Mkdir`, `os.Chdir`, `os.Create` and `ioutil.WriteFile` becomes a `Call`
  appended to a trace, `External.Host(calls, files)`. The file map holds the template, the
  rendered `main.tf` files and the var files. File reads (`ioutil.ReadFile` of the var file and
  the template read by `ParseFiles`) are lookups in that map and add no `Call`. The write of
  `main.tf` by `Execute` changes the map after the `CreateFile` call and adds no `Call` of its
  own.
- **The outside world.** How the world answers each call is described by an `External.Oracle`:
  a value of arrow functions that gives each call's error or result. The process environment is
  a `map<string, string>`.
- **Two layers.** Each effectful Go function is modelled twice.
  - A specification function `F(oracle, host, …)` returns the results and the new host.
  - An imperative `method` works on an `External.World` object, whose `host` it updates step by
    step. Its `ensures` ties the results and the new host to that function.
- **Partners.** The lemmas about the specification functions state what the code promises:
  - the order of the calls;
  - which error ends the pass;
  - what the desired objects contain;
  - that the finalizer is idempotent;
  - that teardown's effects contain no forward provisioning step.
- **Classes for mutable state.** Three Go types whose fields the code updates in place become
  classes:
  - `Controller.Reconciler`, for `AzureAppReconciler` and its `kubeclient` field;
  - `KubeObjects.KubeClient`;
  - `EnvConfig.ConfigVar`, for the package variable `Config` that `SetConfig` fills.
- **Pointers to the app.** A `*AzureApp` argument that the Go code changes is passed in as a
  value, and the updated app comes back as an out-parameter. `ManageFinalizer` takes the app by
  value in Go. Its updates are therefore lost to its caller, and the model keeps that behaviour:
  the later steps see the app as it was fetched.
- **JSON.** JSON encoding is abstract. `Encoded(spec)` is the only file content that decodes to
  a spec, so decoding is injective; every other content fails to decode.

Where a reader might expect otherwise, the model follows the code:
- Missing Terraform outputs give an empty credential value. They are not an error.
- The status is always written, even when it has not changed.
- `CheckCertificate` is defined but not called; there is no readiness requeue.
- The controller calls `dependencies.ManageTerraformableExternalDependencies(&azapp, phase)`
  with two arguments. `dependencies.go` declares no such package function: it declares a method
  on `TfDependenciesClient` with four arguments. The controller's call is therefore modelled as
  one abstract effect, `TfManage(app, phase)`.
- The method `TfDependenciesClient.ManageTerraformableExternalDependencies` is modelled with the
  `tf.go` signatures it calls. Those take no plan file, so the plan file is dropped.
- `tf.NewTerraformClient` is declared with a logger argument that
  `dependencies.NewTerraformClient` does not pass. The model has no logger.
- `controllers/config/config.go` and `controllers/config/main.go` are in the same package, and
  both declare `getEnv` and `getRequiredEnv`. They also both declare `Config`: a struct type in
  `main.go` (line 8) and a package variable in `config.go` (line 24). The model defines the two
  lookups once, in `EnvConfig`, and both settings operations use them. The settings record is
  `EnvConfig.ConfigOptions` in `EnvConfig` and `ConfigLoad.Config` in `ConfigLoad`.

## Model

| member | source | states |
|---|---|---|
| Base.IgnoreNotFound | controllers/azureapp_controller.go:73-75 | a failed Get ends the pass quietly exactly when the error is NotFound, otherwise with that same error |
| External.ReadFile | controllers/helpers.go:244-250 | reading succeeds iff the file exists and the read does not fault, returns the stored content, and a missing file is a NotExist error |
| KubeTypes.SetControllerReference | controllers/helpers.go:171-173 | succeeds iff the scheme knows AzureApp; then the object's metadata is unchanged except that a controller reference with the owner's uid is appended to its owner references |
| Tf.BackendFor | controllers/internal/tf/tf.go:48-52 | the backend is resource group "tf-remote", storage account "rdaremotestate1", container "state", and its key is the app's name |
| Tf.TemplateIsNotMain | controllers/internal/tf/tf.go:54-55 | the template read and the main.tf written are different files, so rendering never overwrites its own template |
| Tf.RenderMainF | controllers/internal/tf/tf.go:47-62 | main.tf is created whatever happens; rendering succeeds iff main.tf can be written and the template can be read, and then main.tf holds the template rendered with the backend data |
| Tf.RenderTerraformMain | controllers/internal/tf/tf.go:47-62 | the method's error and new host are those of RenderMainF |
| Tf.NewClientF | controllers/internal/tf/tf.go:24-38 | the calls are mkdir of `<base>/<name>`, the terraform constructor, then the render; the client is returned iff both the constructor and the render succeed, and its working directory is `<base>/<name>` |
| Tf.NewTerraformClient | controllers/internal/tf/tf.go:24-38 | the method's result and new host are those of NewClientF |
| Tf.GenerateVarFileF | controllers/internal/tf/tf.go:69-82 | writes the encoded spec to `<workdir>/spec.auto.tfvars.json`; succeeds iff the write does not fault, and a failed write (a failed open) leaves the files unchanged |
| Tf.GenerateTerraformVarFile | controllers/internal/tf/tf.go:69-82 | the method's error and new host are those of GenerateVarFileF |
| Tf.CredentialF | controllers/internal/tf/tf.go:84-93 | fails iff terraform output fails, with its error; otherwise returns exactly the keys appId and appSecret, taken from the outputs app_id and app_secret |
| Tf.GetAzureAppCredential | controllers/internal/tf/tf.go:84-93 | the method's result and new host are those of CredentialF |
| Tf.CheckChangesF | controllers/internal/tf/tf.go:95-106 | a failed chdir ends with its error before any plan; otherwise the plan's answer or error is returned |
| Tf.CheckForAzureChanges | controllers/internal/tf/tf.go:95-106 | the method's result and new host are those of CheckChangesF |
| Tf.ApplyF | controllers/internal/tf/tf.go:108-113 | a failed chdir ends with its error before the apply; otherwise the apply's error is returned |
| Tf.ReconcileAzureResources | controllers/internal/tf/tf.go:108-113 | the method's error and new host are those of ApplyF |
| Tf.DeleteStateFile | controllers/internal/tf/tf.go:129-136 | deletes the blob `k8sapp.<name>.json` of container "state" in account rdaremotestate1 and returns the delete's error |
| Tf.DeleteStateF | controllers/internal/tf/tf.go:129-136 | issues one call, the delete of the app's state blob, returns that delete's error and leaves the files unchanged |
| Tf.StateBlobUrlInjective | controllers/internal/tf/tf.go:131 | different app names have different state blobs, so deleting one app's state never deletes another's |
| Tf.DestroyF | controllers/internal/tf/tf.go:115-127 | chdir, then destroy, then the state blob delete, each only if the one before succeeded; the first error is returned; the files are unchanged |
| Tf.DestroyAzureResources | controllers/internal/tf/tf.go:115-127 | the method's error and new host are those of DestroyF |
| Dependencies.NewClientF | controllers/internal/dependencies/dependencies.go:22-25 | a client is present iff there is no error, and it is the Terraform client for TF_BASE_PATH and TF_EXECUTABLE_PATH |
| Dependencies.NewTerraformClient | controllers/internal/dependencies/dependencies.go:22-25 | the method's results and new host are those of NewClientF |
| Dependencies.CheckF | controllers/internal/dependencies/dependencies.go:27-40 | a failed var-file write returns ("", false, error) with no plan; otherwise the plan runs with out file `plan-<name>`, that name is returned, and changed is true iff the plan succeeds and reports changes |
| Dependencies.CheckTerraformableExternalDependencies | controllers/internal/dependencies/dependencies.go:27-40 | the method's results and new host are those of CheckF |
| Dependencies.ManageF | controllers/internal/dependencies/dependencies.go:42-53 | phase "apply" is the Terraform apply, "destroy" is the Terraform destroy, and any other phase is the error "invalid phase" with no effect |
| Dependencies.ManageTerraformableExternalDependencies | controllers/internal/dependencies/dependencies.go:42-53 | the method's error and new host are those of ManageF |
| Dependencies.InvalidPhaseNeedsNoClient | controllers/internal/dependencies/dependencies.go:50-51 | a phase other than "apply" or "destroy" gives "invalid phase" with no effect even with no Terraform client, and the client makes no difference to that result |
| Dependencies.CredentialOutputF | controllers/internal/dependencies/dependencies.go:55-63 | a failed client construction returns its error; otherwise the credential read of the new client; a credential has exactly the keys appId and appSecret |
| Dependencies.GetTerraformAppCredentialOutput | controllers/internal/dependencies/dependencies.go:55-63 | the method's result and new host are those of CredentialOutputF |
| Dependencies.ManageOtherF | controllers/internal/dependencies/dependencies.go:65-88 | with the database off nothing happens; with it on the steps are connecting to `<id>-db` on prdazureappoperatorsv1 with ARM_CLIENT_ID and ARM_CLIENT_SECRET, then creating user `<id>-app`, then granting it owner; each step runs only if the one before succeeded, and the first error is returned |
| Dependencies.ManageOtherExternalDependencies | controllers/internal/dependencies/dependencies.go:65-88 | the method's error and new host are those of ManageOtherF |
| Dependencies.GrantOnlyAfterCreate | controllers/internal/dependencies/dependencies.go:68-85 | the owner grant is issued only after a successful connection and user creation, and the step succeeds iff the database is off or all three steps succeed |
| Dependencies.CheckCertificateF | controllers/internal/dependencies/dependencies.go:90-96 | a failed Azure client returns (false, error); otherwise the lookup of the certificate in vault `<id>-kv` |
| Dependencies.CheckCertificate | controllers/internal/dependencies/dependencies.go:90-96 | the method's results and new host are those of CheckCertificateF |
| KubeObjects.ApplyAllF | controllers/internal/kubeobjects/kubeobjects.go:28-37 | applying objects never changes the files and only adds calls to the trace; its order and outcome are the lemmas below |
| KubeObjects.FirstFailing | controllers/internal/kubeobjects/kubeobjects.go:31-35 | the index of the first object whose patch fails, or the length when none fails |
| KubeObjects.ApplyAllReturnsFirstError | controllers/internal/kubeobjects/kubeobjects.go:28-37 | ApplyAll returns the error of the first failing patch, and no error when every patch succeeds |
| KubeObjects.ApplyAllPatchesInOrder | controllers/internal/kubeobjects/kubeobjects.go:31-35 | the patches are issued in list order with the apply options, up to and including the first failure, and none after it |
| KubeObjects.ApplyAllSucceedsIffAllPatch | controllers/internal/kubeobjects/kubeobjects.go:28-37 | ApplyAll succeeds iff every patch succeeds, and then every object was patched once, in order |
| KubeObjects.SetProvisionStateF | controllers/internal/kubeobjects/kubeobjects.go:39-48 | the app gets the new provisioning state and nothing else changes; the status write is issued with it and its error returned |
| KubeObjects.KubeClient.NewKubeClient | controllers/internal/kubeobjects/kubeobjects.go:20-26 | the client keeps the given API client, context and apply options |
| KubeObjects.KubeClient.ApplyAll | controllers/internal/kubeobjects/kubeobjects.go:28-37 | the loop's error and new host are those of ApplyAllF |
| KubeObjects.KubeClient.SetProvisionState | controllers/internal/kubeobjects/kubeobjects.go:39-48 | the method's results and new host are those of SetProvisionStateF |
| Desired.DesiredSecret | controllers/helpers.go:156-176 | succeeds iff the scheme knows AzureApp; the Secret is named after the Identifier in the app's namespace, with label azureapp, the controller reference, and exactly the keys AZURE_APP_ID and AZURE_APP_SECRET holding appId and appSecret |
| Desired.DesiredDeploymentF | controllers/helpers.go:29-88 | succeeds iff the scheme knows AzureApp; one replica, selector and pod labels azureapp, one container named after the Identifier with the app's image and the environment of DeploymentEnv |
| Desired.DesiredDeployment | controllers/helpers.go:29-88 | the loop that builds the environment gives DesiredDeploymentF's result |
| Desired.PlainEnvAt | controllers/helpers.go:31-37 | entry i of the plain environment is the i-th EnvVars key, in range order, with its value |
| Desired.DeploymentEnvShape | controllers/helpers.go:31-50 | the environment is every EnvVars entry once, then AZURE_APP_ID and AZURE_APP_SECRET taken from the Secret, so it has the EnvVars count plus two entries |
| Desired.DesiredService | controllers/helpers.go:131-154 | succeeds iff the scheme knows AzureApp; NodePort, selector azureapp, one TCP port "http" with port and target port ServingPort |
| Desired.DesiredIngress | controllers/helpers.go:90-129 | succeeds iff the scheme knows AzureApp; one rule for the Url with prefix path "/" to the service named after the Identifier on ServingPort |
| Desired.ObjectsAgree | controllers/helpers.go:29-176 | the objects fit together: the Service selects the Deployment's pods, the Ingress targets the Service's name and port, and each secret reference of the Deployment names the Secret and one of its keys |
| Desired.EnumerationCovers | controllers/helpers.go:35 | a range over a map visits exactly the map's keys |
| Helpers.BuildObjectsF | controllers/helpers.go:178-202 | a credential error is returned; otherwise the result succeeds iff the scheme knows AzureApp and is the Secret, Deployment, Service and Ingress, in that order, after the package object list |
| Helpers.BuildKubeObjects | controllers/helpers.go:178-202 | the method's result and new host are those of BuildObjectsF |
| Helpers.Without | controllers/helpers.go:215 | removing a finalizer takes out every occurrence of that name and keeps every other one with its multiplicity; a list without the name is returned unchanged |
| Helpers.SetupFinalizerF | controllers/helpers.go:204-212 | afterwards the finalizer is present; if it already was, nothing happens; otherwise it is appended and one Update is issued, with its error returned |
| Helpers.SetupFinalizer | controllers/helpers.go:204-212 | the method's results and new host are those of SetupFinalizerF |
| Helpers.SetupFinalizerIdempotent | controllers/helpers.go:204-212 | a second SetupFinalizer does nothing, and the first issues one Update exactly when the finalizer was missing |
| Helpers.RemoveFinalizerF | controllers/helpers.go:214-220 | afterwards the finalizer is absent and every other one is kept; one Update is issued and its error returned |
| Helpers.RemoveFinalizer | controllers/helpers.go:214-220 | the method's results and new host are those of RemoveFinalizerF |
| Helpers.ManageFinalizerF | controllers/helpers.go:222-240 | a live app only gets the finalizer, and the error of SetupFinalizer is discarded; the files never change |
| Helpers.ManageFinalizer | controllers/helpers.go:222-240 | the method's error and new host are those of ManageFinalizerF |
| Helpers.TeardownOrder | controllers/helpers.go:225-239 | for a deleted app, after the finalizer is set up, the steps are the status write "Removing Azure resources", the Terraform destroy, then the Update without the finalizer; each runs only if the one before succeeded, and the first error ends the step |
| Helpers.FinalizerKeptOnFailure | controllers/helpers.go:228-233 | if the status write or the destroy fails, an error is returned and no Update removes the finalizer |
| Helpers.Unmarshal | controllers/helpers.go:252-256 | decoding succeeds exactly on an encoded spec and gives that spec back |
| Helpers.PreviousSpecF | controllers/helpers.go:242-259 | a missing var file is ErrFileNotExist; the previous spec is returned iff the file exists, can be read and decodes |
| Helpers.ShouldReconcileF | controllers/helpers.go:261-275 | an error from reading or decoding the previous spec always means the pass is skipped |
| Helpers.ShouldReconcileCases | controllers/helpers.go:261-275 | no var file means run; a read or decode error means skip with that error; otherwise run iff the stored spec differs from the current one |
| Helpers.VarFileThenSkip | controllers/helpers.go:261-275 | once the var file holds a spec, a later pass runs iff the new spec differs from it |
| Helpers.IgnoreConflict | controllers/helpers.go:277-284 | the error is dropped iff it is a conflict, and is otherwise returned unchanged |
| Controller.ReconcileF | controllers/azureapp_controller.go:68-118 | the model of the pass as written: every step only adds to the trace |
| Controller.ReconcileStoppingAfterTeardownF | controllers/azureapp_controller.go:68-118 | the corrected pass, which ends after a successful teardown: every step only adds to the trace |
| Controller.Reconciler.constructor | controllers/azureapp_controller.go:38-43 | the reconciler keeps its client, scheme and base directory, and has no Kubernetes client yet |
| Controller.Reconciler.Reconcile | controllers/azureapp_controller.go:68-118 | the method's error and new host are those of the pass as written, ReconcileF, and it never asks to requeue; after a successful Get it holds a fresh Kubernetes client with the apply options |
| Controller.ObjectsStageF | controllers/azureapp_controller.go:103-117 | the objects step only adds to the trace |
| Controller.DependenciesStageF | controllers/azureapp_controller.go:96-101 | the dependencies step always begins with the Terraform apply |
| Controller.ForwardF | controllers/azureapp_controller.go:86-117 | the forward steps only add to the trace |
| Controller.GetFailureEndsPass | controllers/azureapp_controller.go:73-75 | a failed Get ends the pass after the Get alone; the error is dropped iff it is NotFound |
| Controller.NoForwardStepConcat | controllers/azureapp_controller.go:81-83 | two traces without a forward step join into one without a forward step |
| Controller.NoForwardStepAfter | controllers/azureapp_controller.go:81-83 | a trace that has no forward step after a given point, and a step at that point that is not a forward step, has no forward step from that point on |
| Controller.ManageFinalizerIsNotForward | controllers/helpers.go:222-240 | ManageFinalizer issues no forward provisioning step; it never applies, patches, reads credentials, builds a Terraform client (mkdir, terraform-exec handle, main.tf) or touches the database |
| Controller.TeardownIsNotForward | controllers/helpers.go:226-238 | the teardown of a deleted app, after the finalizer setup, issues no forward provisioning step |
| Controller.FinalizerErrorEndsPass | controllers/azureapp_controller.go:81-83 | an error from ManageFinalizer ends the pass with that error, and the pass issued no forward step |
| Controller.SkipIssuesNothing | controllers/azureapp_controller.go:86-89 | when the spec has not changed, or the previous spec cannot be read, the forward steps end with shouldReconcile's error and issue nothing |
| Controller.StatusWriteFailureEndsPass | controllers/azureapp_controller.go:93-95 | a failed "Reconciling external dependencies" write ends the pass, quietly iff it is a conflict; a successful one leads to the dependencies with the updated app |
| Controller.DependencyFailuresWrapped | controllers/azureapp_controller.go:96-101 | a Terraform failure ends the pass with "error managing terraform dependencies: " plus its message; a database failure ends it with "error managing other dependencies: " plus its message; otherwise the objects follow |
| Controller.ObjectsStageOrder | controllers/azureapp_controller.go:103-117 | a build error ends the pass; otherwise the patches in order up to the first failure, whose error is dropped, and then the "Provisioned" write with Deployment set to the Identifier; the pass succeeds iff that write succeeds or conflicts |
| Controller.FullPassOrder | controllers/azureapp_controller.go:86-117 | when every dependency succeeds, the trace is the "Reconciling external dependencies" write, the Terraform apply, the dependencies, the build, the patches, and the final "Provisioned" status write with the app's spec and metadata unchanged |
| Controller.ForwardReachesObjects | controllers/azureapp_controller.go:92-104 | when the state write and both dependency steps succeed, the pass continues into the objects step right after them |
| Controller.ForwardBegins | controllers/azureapp_controller.go:86-96 | when the pass runs and the first state write succeeds, the write and then the Terraform apply open the forward trace |
| Controller.TeardownThenForward | controllers/azureapp_controller.go:81-89 | for a deleted app whose teardown succeeds, the pass as written continues with the forward steps on the fetched app, after the finalizer setup, the destroy and the finalizer removal |
| Controller.DestroyThenApply | controllers/azureapp_controller.go:81-96 | a destroy recorded before an apply in a trace stays before it in every extension of that trace |
| Controller.ReprovisionAfterTeardown | controllers/azureapp_controller.go:81-96 | as written, a deleted app with no var file, without our finalizer but with another one, whose state already reads "Removing Azure resources", and whose teardown and first state write succeed, gets a Terraform apply after its Terraform destroy |
| Controller.TeardownEndsPass | controllers/azureapp_controller.go:81-89 | in the corrected pass, a deleted app never gets a forward provisioning step: no apply, patch, credential read, Terraform client construction, database step or forward status write |
| EnvConfig.GetEnv | controllers/config/config.go:39-44 | the variable's value when it is set, the default otherwise |
| EnvConfig.GetRequiredEnv | controllers/config/config.go:46-51 | succeeds iff the variable is set, with its value; otherwise fails with "Environment variable <key> is required but not set" |
| EnvConfig.RequiredAgreesWithOptional | controllers/config/config.go:39-51 | the required lookup agrees with the defaulted one whenever it succeeds, and fails exactly when the variable is unset |
| EnvConfig.FirstPanicIsFirstUnset | controllers/config/config.go:26-37 | SetConfig stops at the first unset required variable in assignment order, and every required one before it is set |
| EnvConfig.SetConfigF | controllers/config/config.go:26-37 | SetConfig fails iff it stops before its end, and then with the message naming the variable it stopped at |
| EnvConfig.SetConfigPanicsIffRequiredMissing | controllers/config/config.go:26-37 | SetConfig stops early iff one of its nine required variables is unset |
| EnvConfig.SetConfigPanicNamesFirstMissing | controllers/config/config.go:26-37 | the variable it stops at is required and unset, and every required variable read before it is set |
| EnvConfig.SetConfigFieldValues | controllers/config/config.go:26-37 | with every required variable set, each field holds its variable, the backend container defaults to "state", and ResourceGroup, StorageAccount and Container are left as they were |
| EnvConfig.SetConfigPanicKeepsPrefix | controllers/config/config.go:27-36 | for each of the ten assignments: if it comes before the stopping point its field holds the variable's value (the container's value or "state"), and otherwise the field keeps its earlier value; ResourceGroup, StorageAccount and Container are never touched |
| EnvConfig.ConfigVar.constructor | controllers/config/config.go:24 | the package variable starts with every field empty |
| EnvConfig.ConfigVar.SetConfig | controllers/config/config.go:26-37 | the method's error and the new settings are those of SetConfigF |
| ConfigLoad.LoadConfig | controllers/config/main.go:20-32 | on success each field holds its variable, and Container is TF_BACKEND_CONTAINER or "state" |
| ConfigLoad.LoadConfigFailsIffMissing | controllers/config/main.go:20-32 | LoadConfig succeeds iff its eight required variables are set, and otherwise fails naming the first unset one |
| ConfigLoad.LoadAgreesWithSet | controllers/config/main.go:20-32 | whenever SetConfig completes, LoadConfig succeeds with the same values; its ResourceGroup, StorageAccount and Container are SetConfig's backend fields |
| ConfigLoad.LoadSucceedsWithoutSqlServer | controllers/config/main.go:20-32 | LoadConfig does not need DEFAULT_SQL_SERVER, and SetConfig fails without it |

## Left out

- InitTerraform (controllers/internal/tf/tf.go:64-67) is not called by any modelled operation. It is left out.
- SetupWithManager and the controller-runtime manager are left out: they are wiring, not logic. Concurrent passes over the same app are left out too. The model looks at one pass at a time.
- Logging, timing (`time.Since` around plan) and the logger values are left out, because they are observable only in logs.
- Tf.RenderMainF: template parsing and execution record no `Call`. A missing or unreadable template is an error, and so is executing into a `main.tf` that could not be created. A parse error of a readable template and an execution error of the template itself are not modelled: template text is abstract, so every readable template parses and renders.
- JSON encoding is abstract (`Encoded(spec)`). The exact bytes are not modelled. A `json.Marshal` failure of a spec is not modelled either: Go cannot produce one for this struct.
- Helpers.ShouldReconcileF: `reflect.DeepEqual` after a JSON round trip is modelled as value equality of the specs. The fields are tagged `omitempty`, so the round trip turns an empty `EnvVars` map into a nil map and an empty `AppRoles` slice into a nil slice. In Go, a spec with `envVars: {}` or `appRoles: []` therefore never compares equal to its stored copy and is always reconciled. The model does not capture this and skips such a spec when it is unchanged.
- Optimistic concurrency is not modelled: objects carry no `resourceVersion`, and the oracle decides each write's outcome without knowing whether the written copy is stale. The API server refuses a write from a stale copy with a conflict. In the pass as written, the status write after a teardown (controllers/azureapp_controller.go:93) sends the app as fetched, which the teardown's writes usually made stale. Usually, then, that write conflicts (the conflict is swallowed) or returns NotFound, and the pass ends there. Controller.ReprovisionAfterTeardown is therefore narrowed to inputs whose teardown writes change nothing that is stored (see Findings).
- Objects that the Kubernetes API returns from Update, Status().Update or Patch are not written back into the app. The model keeps the app the code passed in.
- Dependencies.ManageF: the plan-file argument is accepted but not used. The Terraform apply it leads to takes no plan file.
- Dependencies.CheckF, its method, and the "apply" and "destroy" branches of Dependencies.ManageF and its method require a Terraform client (`tfc.Some?`). The Go code would dereference a nil client there, and the model does not model that crash. Any other phase needs no client and is refused with "invalid phase" (Dependencies.InvalidPhaseNeedsNoClient).
- External.WriteFileF: a write fault stands for a failed open, which leaves the file as it was. `ioutil.WriteFile` opens with truncation, so a failure after a successful open would leave an empty or partly written file; that case is not modelled. The same holds for Tf.GenerateVarFileF, which is this write.
- The internals of the Azure SDK, the `az` package and the `db` package are left out: the SQL statements, credential construction and blob client construction. Each of them is one call with an error chosen by the oracle.
- Tf.DeleteStateFile does not model the errors of `azidentity.NewClientSecretCredential` and `blockblob.NewClient`, because the code discards them.
- A panic of `getRequiredEnv` is modelled as an error result. In EnvConfig.ConfigVar.SetConfig that error ends the method with the assignments made so far kept. In ConfigLoad.LoadConfig nothing is returned.
- EnvConfig.ConfigVar keeps the whole `ConfigOptions` struct as one value and updates one field at a time. Aliasing of the package pointer `Config` is not modelled.
- The `context.Context` that Controller.Reconciler.Reconcile receives is carried but has no effect.
- The pass requires that the enumeration of `EnvVars` the oracle returns visits each key once. A Go map range always does that.

## Findings

| source | as written | input that shows it | evidently intended | confidence | as-written member | corrected member |
|---|---|---|---|---|---|---|
| controllers/azureapp_controller.go:81-96 | after `ManageFinalizer` has torn down a deleted app and returned nil, the pass goes on to `shouldReconcile` and the forward steps | an app whose DeletionTimestamp is set, whose finalizers do not include `DestroyAzureResources` but include another one that keeps the object alive, whose provisioning state already reads "Removing Azure resources", and with no var file at `<TF_BASE_PATH>/<name>/spec.auto.tfvars.json`. Adding the finalizer is refused for an object being deleted, and the error is discarded. The status write and the finalizer removal then change nothing that is stored, so the fetched copy is not stale. The pass runs `terraform destroy`, then writes "Reconciling external dependencies" and runs `terraform apply` again. In the common case the teardown's writes make the fetched copy stale; the status write at line 93 then conflicts or returns NotFound, and the pass stops before `terraform apply` | the pass ends once the teardown has succeeded, so a deleted app is never provisioned again | low, not executed | Controller.ReprovisionAfterTeardown | Controller.TeardownEndsPass |
