/** The reconciler's helpers (controllers/helpers.go:178-284): assembling the object list,
    attaching and removing the finalizer, tearing an app down when it is being deleted, deciding
    from the previous variables file whether to reconcile, and filtering conflict errors. */
module Helpers {
  import opened Base
  import opened Api
  import opened KubeTypes
  import opened External
  import opened Desired
  import opened KubeObjects
  import Dependencies
  import Tf

  /** ErrFileNotExist: the sentinel getPreviousSpec returns when there is no previous spec. */
  const ErrFileNotExist := Error(SpecFileMissing, "spec file does not exist")

  /** The finalizer that guards the app's Azure resources. */
  const FinalizerName := "DestroyAzureResources"

  /** buildKubeObjects: the credential from terraform, then the Secret, Deployment, Service and
      Ingress appended, in that order, to AzAppKubeObjects; no list at all on the first failure.
      `keys` is the order the Deployment's range over EnvVars visits them in. */
  function BuildObjectsF(o: Oracle, env: map<string, string>, h: Host, app: AzureApp, scheme: Scheme): (r: (Result<seq<KubeObject>>, Host))
    requires IsEnumeration(o.rangeOrder(app.spec.envVars), app.spec.envVars)
    ensures var (cred, h1) := Dependencies.CredentialOutputF(o, env, h, app);
      && r.1 == h1
      && (cred.Err? ==> r.0 == Err(cred.error))
      && (cred.Ok? ==> (r.0.Ok? <==> scheme.knowsAzureApp))
      && (r.0.Ok? ==>
            var secret := DesiredSecret(cred.value, app, scheme).value;
            r.0.value == AzAppKubeObjects + [
              SecretObject(secret),
              DeploymentObject(DesiredDeploymentF(app, secret, o.rangeOrder(app.spec.envVars), scheme).value),
              ServiceObject(DesiredService(app, scheme).value),
              IngressObject(DesiredIngress(app, scheme).value)])
  {
    var (cred, h1) := Dependencies.CredentialOutputF(o, env, h, app);
    match cred
    case Err(e) => (Err(e), h1)
    case Ok(appCredential) =>
      match DesiredSecret(appCredential, app, scheme)
      case Err(e) => (Err(e), h1)
      case Ok(secret) =>
        // Setting an owner reference fails only on the scheme, so once the Secret's succeeded
        // the other three builders cannot fail and their error checks are never taken.
        var deployment := DesiredDeploymentF(app, secret, o.rangeOrder(app.spec.envVars), scheme).value;
        var service := DesiredService(app, scheme).value;
        var ingress := DesiredIngress(app, scheme).value;
        (Ok(AzAppKubeObjects + [SecretObject(secret), DeploymentObject(deployment), ServiceObject(service), IngressObject(ingress)]), h1)
  }

  method BuildKubeObjects(w: World, app: AzureApp, scheme: Scheme) returns (r: Result<seq<KubeObject>>)
    requires IsEnumeration(w.oracle.rangeOrder(app.spec.envVars), app.spec.envVars)
    modifies w
    ensures (r, w.host) == BuildObjectsF(w.oracle, w.env, old(w.host), app, scheme)
  {
    var azappk8s := AzAppKubeObjects;
    var appCredential := Dependencies.GetTerraformAppCredentialOutput(w, app);
    if appCredential.Err? {
      return Err(appCredential.error);
    }
    var secret := DesiredSecret(appCredential.value, app, scheme);
    if secret.Err? {
      return Err(secret.error);
    }
    var deployment := DesiredDeployment(app, secret.value, w.oracle.rangeOrder(app.spec.envVars), scheme);
    if deployment.Err? {
      assert false;  // the Secret's owner reference already succeeded on this scheme
    }
    var service := DesiredService(app, scheme);
    if service.Err? {
      assert false;  // the Secret's owner reference already succeeded on this scheme
    }
    var ingress := DesiredIngress(app, scheme);
    if ingress.Err? {
      assert false;  // the Secret's owner reference already succeeded on this scheme
    }
    return Ok(azappk8s + [SecretObject(secret.value), DeploymentObject(deployment.value),
                          ServiceObject(service.value), IngressObject(ingress.value)]);
  }

  /** The app with its finalizer list replaced. */
  function WithFinalizers(app: AzureApp, finalizers: seq<string>): AzureApp {
    app.(meta := app.meta.(finalizers := finalizers))
  }

  /** controllerutil.RemoveFinalizer's list: every occurrence of `f` dropped and every other entry kept. */
  function Without(fs: seq<string>, f: string): (r: seq<string>)
    ensures f !in r
    ensures forall g :: g != f ==> (g in r <==> g in fs)
    ensures |r| <= |fs|
    ensures multiset(r) == multiset(fs)[f := 0]
    ensures f !in fs ==> r == fs
  {
    assert fs != [] ==> fs == [fs[0]] + fs[1..];
    if fs == [] then []
    else if fs[0] == f then Without(fs[1..], f)
    else [fs[0]] + Without(fs[1..], f)
  }

  /** SetupFinalizer: add the finalizer and write the app only when it is absent. The in-memory
      app keeps the finalizer even when the write fails. */
  function SetupFinalizerF(o: Oracle, h: Host, finalizerName: string, app: AzureApp): (r: (AzureApp, Option<Error>, Host))
    ensures finalizerName in r.0.meta.finalizers
    ensures r.0.spec == app.spec && r.0.status == app.status
    ensures r.0.meta == app.meta.(finalizers := r.0.meta.finalizers)
    ensures finalizerName in app.meta.finalizers ==> r == (app, None, h)
    ensures finalizerName !in app.meta.finalizers ==>
      && r.0.meta.finalizers == app.meta.finalizers + [finalizerName]
      && r.1 == o.update(r.0) && r.2 == h.Then(KubeUpdate(r.0))
  {
    if finalizerName in app.meta.finalizers then (app, None, h)
    else
      var app' := WithFinalizers(app, app.meta.finalizers + [finalizerName]);
      (app', o.update(app'), h.Then(KubeUpdate(app')))
  }

  method SetupFinalizer(w: World, finalizerName: string, azapp: AzureApp) returns (azapp': AzureApp, err: Option<Error>)
    modifies w
    ensures (azapp', err, w.host) == SetupFinalizerF(w.oracle, old(w.host), finalizerName, azapp)
  {
    azapp' := azapp;
    if finalizerName !in azapp.meta.finalizers {
      azapp' := WithFinalizers(azapp, azapp.meta.finalizers + [finalizerName]);
      err := w.Update(azapp');
      if err.Some? {
        return;
      }
    }
    return azapp', None;
  }

  /** Attaching the finalizer twice is the same as attaching it once: the second call writes
      nothing and changes nothing. */
  lemma SetupFinalizerIdempotent(o: Oracle, h: Host, finalizerName: string, app: AzureApp)
    ensures var (app1, _, h1) := SetupFinalizerF(o, h, finalizerName, app);
      SetupFinalizerF(o, h1, finalizerName, app1) == (app1, None, h1)
    ensures var (_, _, h1) := SetupFinalizerF(o, h, finalizerName, app);
      |h1.calls| == |h.calls| + (if finalizerName in app.meta.finalizers then 0 else 1)
  {
  }

  /** RemoveFinalizer: drop the finalizer and always write the app. */
  function RemoveFinalizerF(o: Oracle, h: Host, finalizerName: string, app: AzureApp): (r: (AzureApp, Option<Error>, Host))
    ensures finalizerName !in r.0.meta.finalizers
    ensures forall g :: g != finalizerName ==> (g in r.0.meta.finalizers <==> g in app.meta.finalizers)
    ensures r.0.spec == app.spec && r.0.status == app.status
    ensures r.0.meta == app.meta.(finalizers := r.0.meta.finalizers)
    ensures r.1 == o.update(r.0) && r.2 == h.Then(KubeUpdate(r.0))
  {
    var app' := WithFinalizers(app, Without(app.meta.finalizers, finalizerName));
    (app', o.update(app'), h.Then(KubeUpdate(app')))
  }

  method RemoveFinalizer(w: World, finalizerName: string, azapp: AzureApp) returns (azapp': AzureApp, err: Option<Error>)
    modifies w
    ensures (azapp', err, w.host) == RemoveFinalizerF(w.oracle, old(w.host), finalizerName, azapp)
  {
    azapp' := WithFinalizers(azapp, Without(azapp.meta.finalizers, finalizerName));
    err := w.Update(azapp');
    if err.Some? {
      return;
    }
    return azapp', None;
  }

  /** ManageFinalizer on its own copy of the app: attach the finalizer (its error is dropped);
      when the app is being deleted, mark it "Removing Azure resources", destroy its terraform
      resources, then remove the finalizer, returning the first error. The caller's app sees
      none of these changes. */
  function ManageFinalizerF(o: Oracle, h: Host, app: AzureApp): (r: (Option<Error>, Host))
    ensures h.calls <= r.1.calls && r.1.files == h.files
    ensures !app.meta.deletionTimestampSet ==> r == (None, SetupFinalizerF(o, h, FinalizerName, app).2)
  {
    var (app1, _, h1) := SetupFinalizerF(o, h, FinalizerName, app);
    if !app1.meta.deletionTimestampSet then (None, h1)
    else
      var (app2, statusErr, h2) := SetProvisionStateF(o, h1, "Removing Azure resources", app1);
      if statusErr.Some? then (statusErr, h2)
      else
        var h3 := h2.Then(TfManage(app2, "destroy"));
        if o.manage(app2, "destroy").Some? then (o.manage(app2, "destroy"), h3)
        else
          var (_, removeErr, h4) := RemoveFinalizerF(o, h3, FinalizerName, app2);
          (removeErr, h4)
  }

  method ManageFinalizer(w: World, kubeclient: KubeClient, azapp: AzureApp) returns (err: Option<Error>)
    requires kubeclient.client == w
    modifies w
    ensures (err, w.host) == ManageFinalizerF(w.oracle, old(w.host), azapp)
  {
    var app := azapp;  // the parameter is passed by value
    var setupErr;
    app, setupErr := SetupFinalizer(w, FinalizerName, app);  // the error is discarded
    if app.meta.deletionTimestampSet {
      app, err := kubeclient.SetProvisionState("Removing Azure resources", app);
      if err.Some? {
        return;
      }
      err := w.ManageTerraform(app, "destroy");
      if err.Some? {
        return;
      }
      app, err := RemoveFinalizer(w, FinalizerName, app);
      if err.Some? {
        return;
      }
    }
    return None;
  }

  /** Teardown runs in a fixed order, each step only after the previous one succeeded: the
      status write, then the terraform destroy, then the write that removes the finalizer. The
      result is the first error, or that of the last write. */
  lemma TeardownOrder(o: Oracle, h: Host, app: AzureApp)
    requires app.meta.deletionTimestampSet
    ensures var (app1, _, h1) := SetupFinalizerF(o, h, FinalizerName, app);
      var app2 := app1.(status := app1.status.(provisioningState := "Removing Azure resources"));
      var app3 := WithFinalizers(app2, Without(app2.meta.finalizers, FinalizerName));
      var steps := [KubeStatusUpdate(app2), TfManage(app2, "destroy"), KubeUpdate(app3)];
      var outcomes := [o.statusUpdate(app2), o.manage(app2, "destroy"), o.update(app3)];
      var n := if outcomes[0].Some? then 1 else if outcomes[1].Some? then 2 else 3;
      var r := ManageFinalizerF(o, h, app);
      && r.1.calls == h1.calls + steps[..n]
      && r.0 == outcomes[n - 1]
      && r.1.files == h.files
  {
  }

  /** A failed status write or a failed destroy leaves the finalizer on the app: no write issued
      by the pass drops it. */
  lemma FinalizerKeptOnFailure(o: Oracle, h: Host, app: AzureApp)
    requires app.meta.deletionTimestampSet
    ensures var (app1, _, h1) := SetupFinalizerF(o, h, FinalizerName, app);
      var app2 := app1.(status := app1.status.(provisioningState := "Removing Azure resources"));
      var r := ManageFinalizerF(o, h, app);
      (o.statusUpdate(app2).Some? || o.manage(app2, "destroy").Some?) ==>
        && r.0.Some?
        && forall c :: c in r.1.calls[|h.calls|..] && c.KubeUpdate? ==> FinalizerName in c.app.meta.finalizers
  {
    var (app1, _, h1) := SetupFinalizerF(o, h, FinalizerName, app);
    var app2 := app1.(status := app1.status.(provisioningState := "Removing Azure resources"));
    var r := ManageFinalizerF(o, h, app);
    TeardownOrder(o, h, app);
    if o.statusUpdate(app2).Some? || o.manage(app2, "destroy").Some? {
      var setupCalls := h1.calls[|h.calls|..];
      assert setupCalls == [] || setupCalls == [KubeUpdate(app1)];
      if o.statusUpdate(app2).Some? {
        assert r.1.calls[|h.calls|..] == setupCalls + [KubeStatusUpdate(app2)];
      } else {
        assert r.1.calls[|h.calls|..] == setupCalls + [KubeStatusUpdate(app2), TfManage(app2, "destroy")];
      }
    }
  }

  /** The variables file getPreviousSpec reads: `<TF_BASE_PATH>/<Name>/spec.auto.tfvars.json`. */
  function PreviousSpecPath(env: map<string, string>, app: AzureApp): string {
    Getenv(env, "TF_BASE_PATH") + "/" + app.meta.name + "/spec.auto.tfvars.json"
  }

  /** json.Unmarshal into an AzureAppSpec: only an encoded spec decodes. */
  function Unmarshal(content: FileContent): (r: Result<Spec>)
    ensures r.Ok? <==> content.Encoded?
    ensures r.Ok? ==> r.value == content.spec
  {
    match content
    case Encoded(spec) => Ok(spec)
    case _ => Err(NewError("invalid character looking for beginning of value"))
  }

  /** getPreviousSpec: the spec last written to the variables file; the sentinel when there is
      no such file, any other read or decode error as it is. */
  function PreviousSpecF(o: Oracle, env: map<string, string>, files: map<string, FileContent>, app: AzureApp): (r: Result<Spec>)
    ensures PreviousSpecPath(env, app) !in files ==> r == Err(ErrFileNotExist)
    ensures r.Err? && r.error != ErrFileNotExist ==> r.error.kind == Other
    ensures r.Ok? <==>
      && PreviousSpecPath(env, app) in files && o.readFault(PreviousSpecPath(env, app)).None?
      && files[PreviousSpecPath(env, app)].Encoded?
    ensures r.Ok? ==> r.value == files[PreviousSpecPath(env, app)].spec
  {
    match ReadFile(o, files, PreviousSpecPath(env, app))
    case Err(e) => if e.kind == NotExist then Err(ErrFileNotExist) else Err(e)
    case Ok(content) => Unmarshal(content)
  }

  /** shouldReconcile: reconcile when there is no previous spec or it differs from the current
      one; skip when it is equal; skip with the error when it cannot be read or decoded. */
  function ShouldReconcileF(o: Oracle, env: map<string, string>, files: map<string, FileContent>, app: AzureApp): (r: (bool, Option<Error>))
    ensures r.1.Some? ==> !r.0
  {
    match PreviousSpecF(o, env, files, app)
    case Err(e) => if e == ErrFileNotExist then (true, None) else (false, Some(e))
    case Ok(previousSpec) => (previousSpec != app.spec, None)
  }

  /** The four outcomes of shouldReconcile. */
  lemma ShouldReconcileCases(o: Oracle, env: map<string, string>, files: map<string, FileContent>, app: AzureApp)
    ensures var path := PreviousSpecPath(env, app);
      var r := ShouldReconcileF(o, env, files, app);
      && (path !in files ==> r == (true, None))
      && (path in files && o.readFault(path).Some? ==> r == (false, Some(NewError(o.readFault(path).value))))
      && (path in files && o.readFault(path).None? && !files[path].Encoded? ==> !r.0 && r.1.Some?)
      && (path in files && o.readFault(path).None? && files[path].Encoded? ==>
            r == (files[path].spec != app.spec, None))
  {
  }

  /** Writing the variables file and then asking shouldReconcile about the same spec skips the
      next pass, while any change of the spec is reconciled: the file GenerateTerraformVarFile
      writes is the file getPreviousSpec reads. */
  lemma VarFileThenSkip(o: Oracle, env: map<string, string>, h: Host, app: AzureApp, next: AzureApp)
    requires next.meta.name == app.meta.name
    ensures var tfc := Tf.TfClient(Tf.Workdir(Getenv(env, "TF_BASE_PATH"), app.meta.name), Getenv(env, "TF_EXECUTABLE_PATH"));
      var (err, h1) := Tf.GenerateVarFileF(o, h, tfc, app);
      err.None? && o.readFault(PreviousSpecPath(env, app)).None? ==>
        ShouldReconcileF(o, env, h1.files, next) == (next.spec != app.spec, None)
  {
    var base := Getenv(env, "TF_BASE_PATH");
    assert Tf.VarFilePath(Tf.Workdir(base, app.meta.name)) == PreviousSpecPath(env, next);
  }

  /** ignoreConflict: nil for a conflict error, any other error unchanged. */
  function IgnoreConflict(err: Option<Error>): (r: Option<Error>)
    ensures r.None? <==> err.None? || err.value.kind == Conflict
    ensures r.Some? ==> r == err
  {
    if err.Some? && err.value.kind == Conflict then None else err
  }
}
