/** The terraform client of controllers/internal/tf/tf.go: one working directory per AzureApp,
    the rendered backend configuration, the variables file, the credential outputs and the
    chdir-then-run discipline of plan, apply and destroy. The terraform executable, the template
    engine and the blob store are outside effects (module External). */
module Tf {
  import opened Base
  import opened Api
  import opened External

  /** TfClient: a terraform executable bound to a working directory (the embedded
      *tfexec.Terraform; the logger is left out). */
  datatype TfClient = TfClient(workdir: string, execPath: string)

  /** tfBackendInfo: the values rendered into the backend block of main.tf. */
  datatype BackendInfo = BackendInfo(resourceGroup: string, storageAccount: string, container: string, key: string)

  function Workdir(tfBaseDir: string, name: string): string {
    tfBaseDir + "/" + name
  }

  function TemplatePath(tfDir: string): string {
    tfDir + "/main.tf.gotmpl"
  }

  function MainTfPath(tfDir: string, name: string): string {
    tfDir + "/" + name + "/main.tf"
  }

  function VarFilePath(workdir: string): string {
    workdir + "/spec.auto.tfvars.json"
  }

  /** The remote state blob of an app: `k8sapp.<Name>.json` in container `state`. */
  function StateBlobUrl(name: string): string {
    "https://rdaremotestate1.blob.core.windows.net/state/k8sapp." + name + ".json"
  }

  /** The backend of every app lives in one fixed storage account; only the key differs. */
  function BackendFor(app: AzureApp): (b: BackendInfo)
    ensures b.resourceGroup == "tf-remote" && b.storageAccount == "rdaremotestate1" && b.container == "state"
    ensures b.key == app.meta.name
  {
    BackendInfo("tf-remote", "rdaremotestate1", "state", app.meta.name)
  }

  /** The field values the template sees. */
  function BackendData(b: BackendInfo): map<string, string> {
    map["ResourceGroup" := b.resourceGroup, "StorageAccount" := b.storageAccount,
        "Container" := b.container, "Key" := b.key]
  }

  /** The template never lies at the path main.tf is rendered to, so creating main.tf cannot
      clobber it. */
  lemma TemplateIsNotMain(tfDir: string, name: string)
    ensures TemplatePath(tfDir) != MainTfPath(tfDir, name)
  {
    if |name| == 6 {
      assert TemplatePath(tfDir)[|tfDir| + 7] == 'f';
      assert MainTfPath(tfDir, name)[|tfDir| + 7] == '/';
    }
  }

  /** renderTerraformMain: create (or truncate) `<tfDir>/<Name>/main.tf`, ignoring a failure to do
      so, parse the template `<tfDir>/main.tf.gotmpl` and execute it into main.tf. A missing or
      unreadable template is returned as the error and leaves main.tf empty; executing into a file
      that could not be created fails with "invalid argument". */
  function RenderMainF(o: Oracle, h: Host, app: AzureApp, tfDir: string): (r: (Option<Error>, Host))
    ensures r.0.None? <==>
      o.writeFault(MainTfPath(tfDir, app.meta.name)).None? && ReadFile(o, h.files, TemplatePath(tfDir)).Ok?
    ensures r.0.None? ==> r.1.files == h.files[MainTfPath(tfDir, app.meta.name) :=
      Rendered(h.files[TemplatePath(tfDir)], BackendData(BackendFor(app)))]
    ensures r.1.calls == h.calls + [CreateFile(MainTfPath(tfDir, app.meta.name))]
  {
    TemplateIsNotMain(tfDir, app.meta.name);
    var mainPath := MainTfPath(tfDir, app.meta.name);
    var (createErr, h1) := CreateFileF(o, h, mainPath);
    match ReadFile(o, h1.files, TemplatePath(tfDir))
    case Err(e) => (Some(e), h1)
    case Ok(tmpl) =>
      if createErr.Some? then (Some(NewError("invalid argument")), h1)
      else (None, h1.(files := h1.files[mainPath := Rendered(tmpl, BackendData(BackendFor(app)))]))
  }

  method RenderTerraformMain(w: World, app: AzureApp, tfDir: string) returns (err: Option<Error>)
    modifies w
    ensures (err, w.host) == RenderMainF(w.oracle, old(w.host), app, tfDir)
  {
    var mainPath := MainTfPath(tfDir, app.meta.name);
    var createErr := w.Create(mainPath);  // the error of os.Create is discarded
    var tmpl := ReadFile(w.oracle, w.host.files, TemplatePath(tfDir));
    if tmpl.Err? {
      return Some(tmpl.error);
    }
    if createErr.Some? {
      return Some(NewError("invalid argument"));
    }
    w.host := w.host.(files := w.host.files[mainPath := Rendered(tmpl.value, BackendData(BackendFor(app)))]);
    return None;
  }

  /** NewTerraformClient: the working directory is `<base>/<Name>`; the result of os.Mkdir is
      ignored, so an existing directory does not stop the client from being made. A render
      failure is reported in preference to a failure of tfexec.NewTerraform. */
  function NewClientF(o: Oracle, h: Host, tfExePath: string, tfBaseDir: string, app: AzureApp): (r: (Result<TfClient>, Host))
    ensures r.0.Ok? ==> r.0.value == TfClient(Workdir(tfBaseDir, app.meta.name), tfExePath)
    ensures r.0.Ok? <==>
      o.newTerraform(Workdir(tfBaseDir, app.meta.name), tfExePath).None? && RenderMainF(o, h, app, tfBaseDir).0.None?
    ensures r.1.calls == h.calls + [Mkdir(Workdir(tfBaseDir, app.meta.name)),
      TfNew(Workdir(tfBaseDir, app.meta.name), tfExePath), CreateFile(MainTfPath(tfBaseDir, app.meta.name))]
  {
    var workdir := Workdir(tfBaseDir, app.meta.name);
    var h1 := h.Then(Mkdir(workdir)).Then(TfNew(workdir, tfExePath));
    var newErr := o.newTerraform(workdir, tfExePath);
    var (renderErr, h2) := RenderMainF(o, h1, app, tfBaseDir);
    if renderErr.Some? then (Err(renderErr.value), h2)
    else if newErr.Some? then (Err(newErr.value), h2)
    else (Ok(TfClient(workdir, tfExePath)), h2)
  }

  method NewTerraformClient(w: World, tfExePath: string, tfBaseDir: string, app: AzureApp) returns (r: Result<TfClient>)
    modifies w
    ensures (r, w.host) == NewClientF(w.oracle, old(w.host), tfExePath, tfBaseDir, app)
  {
    var workdir := Workdir(tfBaseDir, app.meta.name);
    var mkdirErr := w.Mkdir(workdir);  // discarded
    var newErr := w.NewTerraform(workdir, tfExePath);
    var renderErr := RenderTerraformMain(w, app, tfBaseDir);
    if renderErr.Some? {
      return Err(renderErr.value);
    }
    if newErr.Some? {
      return Err(newErr.value);
    }
    return Ok(TfClient(workdir, tfExePath));
  }

  /** GenerateTerraformVarFile: the JSON encoding of the Spec is written to
      `<workdir>/spec.auto.tfvars.json`. (json.Marshal of a Spec cannot fail.) */
  function GenerateVarFileF(o: Oracle, h: Host, tfc: TfClient, app: AzureApp): (r: (Option<Error>, Host))
    ensures r.0.None? <==> o.writeFault(VarFilePath(tfc.workdir)).None?
    ensures r.0.None? ==> r.1.files == h.files[VarFilePath(tfc.workdir) := Encoded(app.spec)]
    ensures r.0.Some? ==> r.1.files == h.files
    ensures r.1.calls == h.calls + [WriteFile(VarFilePath(tfc.workdir), Encoded(app.spec))]
  {
    WriteFileF(o, h, VarFilePath(tfc.workdir), Encoded(app.spec))
  }

  method GenerateTerraformVarFile(w: World, tfc: TfClient, app: AzureApp) returns (err: Option<Error>)
    modifies w
    ensures (err, w.host) == GenerateVarFileF(w.oracle, old(w.host), tfc, app)
  {
    var tfvarFileName := VarFilePath(tfc.workdir);
    var jsonspec := Encoded(app.spec);
    err := w.WriteFile(tfvarFileName, jsonspec);
  }

  /** `string(output[name].Value)`: the raw JSON text of an output, empty when it is absent. */
  function OutputValue(outputs: map<string, string>, name: string): string {
    if name in outputs then outputs[name] else ""
  }

  /** GetAzureAppCredential: no map and the error when reading outputs fails; otherwise a map
      with exactly the keys appId and appSecret, taken from outputs app_id and app_secret. */
  function CredentialF(o: Oracle, h: Host, tfc: TfClient): (r: (Result<map<string, string>>, Host))
    ensures r.0.Err? <==> o.output(tfc.workdir).Err?
    ensures r.0.Err? ==> r.0.error == o.output(tfc.workdir).error
    ensures r.0.Ok? ==> r.0.value.Keys == {"appId", "appSecret"}
    ensures r.0.Ok? ==> r.0.value["appId"] == OutputValue(o.output(tfc.workdir).value, "app_id")
    ensures r.0.Ok? ==> r.0.value["appSecret"] == OutputValue(o.output(tfc.workdir).value, "app_secret")
    ensures r.1 == h.Then(TfOutput(tfc.workdir))
  {
    var h1 := h.Then(TfOutput(tfc.workdir));
    match o.output(tfc.workdir)
    case Err(e) => (Err(e), h1)
    case Ok(output) =>
      (Ok(map["appId" := OutputValue(output, "app_id"), "appSecret" := OutputValue(output, "app_secret")]), h1)
  }

  method GetAzureAppCredential(w: World, tfc: TfClient) returns (r: Result<map<string, string>>)
    modifies w
    ensures (r, w.host) == CredentialF(w.oracle, old(w.host), tfc)
  {
    var appCreds: map<string, string> := map[];
    var output := w.Output(tfc.workdir);
    if output.Err? {
      return Err(output.error);
    }
    appCreds := appCreds["appId" := OutputValue(output.value, "app_id")];
    appCreds := appCreds["appSecret" := OutputValue(output.value, "app_secret")];
    return Ok(appCreds);
  }

  /** CheckForAzureChanges: change to the working directory, then plan. */
  function CheckChangesF(o: Oracle, h: Host, tfc: TfClient): (r: (Result<bool>, Host))
    ensures o.chdir(tfc.workdir).Some? ==>
      r == (Err(o.chdir(tfc.workdir).value), h.Then(Chdir(tfc.workdir)))
    ensures o.chdir(tfc.workdir).None? ==>
      r == (o.plan(tfc.workdir), h.Then(Chdir(tfc.workdir)).Then(TfPlan(tfc.workdir, None)))
  {
    var h1 := h.Then(Chdir(tfc.workdir));
    if o.chdir(tfc.workdir).Some? then (Err(o.chdir(tfc.workdir).value), h1)
    else
      var h2 := h1.Then(TfPlan(tfc.workdir, None));
      match o.plan(tfc.workdir)
      case Err(e) => (Err(e), h2)
      case Ok(changed) => (Ok(changed), h2)
  }

  method CheckForAzureChanges(w: World, tfc: TfClient) returns (r: Result<bool>)
    modifies w
    ensures (r, w.host) == CheckChangesF(w.oracle, old(w.host), tfc)
  {
    var err := w.Chdir(tfc.workdir);
    if err.Some? {
      return Err(err.value);
    }
    var changed := w.Plan(tfc.workdir, None);
    if changed.Err? {
      return Err(changed.error);
    }
    return Ok(changed.value);
  }

  /** ReconcileAzureResources: change to the working directory, then apply. */
  function ApplyF(o: Oracle, h: Host, tfc: TfClient): (r: (Option<Error>, Host))
    ensures o.chdir(tfc.workdir).Some? ==> r == (o.chdir(tfc.workdir), h.Then(Chdir(tfc.workdir)))
    ensures o.chdir(tfc.workdir).None? ==>
      r == (o.apply(tfc.workdir), h.Then(Chdir(tfc.workdir)).Then(TfApply(tfc.workdir)))
  {
    var h1 := h.Then(Chdir(tfc.workdir));
    if o.chdir(tfc.workdir).Some? then (o.chdir(tfc.workdir), h1)
    else (o.apply(tfc.workdir), h1.Then(TfApply(tfc.workdir)))
  }

  method ReconcileAzureResources(w: World, tfc: TfClient) returns (err: Option<Error>)
    modifies w
    ensures (err, w.host) == ApplyF(w.oracle, old(w.host), tfc)
  {
    err := w.Chdir(tfc.workdir);
    if err.Some? {
      return;
    }
    err := w.Apply(tfc.workdir);
  }

  /** deleteStateFile: delete the app's remote state blob. (The credential and blob-client
      constructors whose errors the source discards are not modelled.) */
  function DeleteStateF(o: Oracle, h: Host, app: AzureApp): (r: (Option<Error>, Host))
    ensures r.1.files == h.files
    ensures r.1.calls == h.calls + [BlobDelete(StateBlobUrl(app.meta.name))]
    ensures r.0 == o.blobDelete(StateBlobUrl(app.meta.name))
  {
    (o.blobDelete(StateBlobUrl(app.meta.name)), h.Then(BlobDelete(StateBlobUrl(app.meta.name))))
  }

  /** Each app has its own state blob: deleting one app's state never deletes another's. */
  lemma StateBlobUrlInjective(a: string, b: string)
    ensures StateBlobUrl(a) == StateBlobUrl(b) ==> a == b
  {
    var pre := "https://rdaremotestate1.blob.core.windows.net/state/k8sapp.";
    if StateBlobUrl(a) == StateBlobUrl(b) {
      var u := StateBlobUrl(a);
      assert |a| == |b|;
      assert u[|pre|..|pre| + |a|] == a;
      assert StateBlobUrl(b)[|pre|..|pre| + |b|] == b;
    }
  }

  method DeleteStateFile(w: World, app: AzureApp) returns (err: Option<Error>)
    modifies w
    ensures (err, w.host) == DeleteStateF(w.oracle, old(w.host), app)
  {
    err := w.DeleteBlob(StateBlobUrl(app.meta.name));
  }

  /** DestroyAzureResources: change to the working directory, destroy, and only after a
      successful destroy delete the remote state. */
  function DestroyF(o: Oracle, h: Host, tfc: TfClient, app: AzureApp): (r: (Option<Error>, Host))
    ensures r.1.files == h.files
    ensures o.chdir(tfc.workdir).Some? ==> r == (o.chdir(tfc.workdir), h.Then(Chdir(tfc.workdir)))
    ensures o.chdir(tfc.workdir).None? && o.destroy(tfc.workdir).Some? ==>
      r == (o.destroy(tfc.workdir), h.Then(Chdir(tfc.workdir)).Then(TfDestroy(tfc.workdir)))
    ensures o.chdir(tfc.workdir).None? && o.destroy(tfc.workdir).None? ==>
      r == (o.blobDelete(StateBlobUrl(app.meta.name)),
            h.Then(Chdir(tfc.workdir)).Then(TfDestroy(tfc.workdir)).Then(BlobDelete(StateBlobUrl(app.meta.name))))
  {
    var h1 := h.Then(Chdir(tfc.workdir));
    if o.chdir(tfc.workdir).Some? then (o.chdir(tfc.workdir), h1)
    else
      var h2 := h1.Then(TfDestroy(tfc.workdir));
      if o.destroy(tfc.workdir).None? then DeleteStateF(o, h2, app)
      else (o.destroy(tfc.workdir), h2)
  }

  method DestroyAzureResources(w: World, tfc: TfClient, app: AzureApp) returns (err: Option<Error>)
    modifies w
    ensures (err, w.host) == DestroyF(w.oracle, old(w.host), tfc, app)
  {
    err := w.Chdir(tfc.workdir);
    if err.Some? {
      return;
    }
    err := w.Destroy(tfc.workdir);
    if err.None? {
      err := DeleteStateFile(w, app);
      return;
    }
  }
}
