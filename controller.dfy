/** One reconciliation pass of the AzureApp controller (controllers/azureapp_controller.go:68-118):
    fetch the app, attach the finalizer and tear down a deleted app, decide whether anything
    changed, then provision the external dependencies, build and apply the Kubernetes objects and
    record the outcome in the status. Every step either succeeds or ends the pass. */
module Controller {
  import opened Base
  import opened Api
  import opened KubeTypes
  import opened External
  import opened KubeObjects
  import opened Helpers
  import Dependencies

  /** ctrl.Result. The pass never asks to be requeued: it always returns the empty result. */
  datatype CtrlResult = CtrlResult(requeue: bool, requeueAfter: int)

  /** applyOpts: server-side apply, taking ownership of conflicting fields. */
  const ApplyOpts := [ForceOwnership, FieldOwner("azureapp-controller")]

  /** The range over the fetched app's EnvVars visits each of its keys once. */
  predicate RangeFits(o: Oracle, req: NamespacedName) {
    o.get(req).Ok? ==> IsEnumeration(o.rangeOrder(o.get(req).value.spec.envVars), o.get(req).value.spec.envVars)
  }

  /** A call that belongs to forward provisioning: the two forward status writes, terraform
      apply, the database, the credential read with the Terraform client it builds (working
      directory, terraform-exec handle, re-rendered main.tf), and applying objects. */
  predicate IsForwardStep(c: Call) {
    || c.KubePatch? || c.TfOutput? || c.SqlOpen? || c.SqlCreateUser? || c.SqlGrantOwner?
    || c.Mkdir? || c.TfNew? || c.CreateFile?
    || (c.TfManage? && c.phase == "apply")
    || (c.KubeStatusUpdate? && c.app.status.provisioningState != "Removing Azure resources")
  }

  /** Lines 103-117: build the objects (their error ends the pass), apply them (the error of
      ApplyAll is dropped), set Status.Deployment to the Identifier and write "Provisioned". */
  function ObjectsStageF(o: Oracle, env: map<string, string>, h: Host, scheme: Scheme, app: AzureApp): (r: (Option<Error>, Host))
    requires IsEnumeration(o.rangeOrder(app.spec.envVars), app.spec.envVars)
    ensures h.calls <= r.1.calls
  {
    var (objs, h1) := BuildObjectsF(o, env, h, app, scheme);
    if objs.Err? then (Some(objs.error), h1)
    else
      var (_, h2) := ApplyAllF(o, h1, objs.value, ApplyOpts);
      var app' := app.(status := app.status.(deployment := app.spec.identifier));
      var (_, err, h3) := SetProvisionStateF(o, h2, "Provisioned", app');
      (IgnoreConflict(err), h3)
  }

  /** Lines 96-101: terraform apply, then the other dependencies; each failure is returned with
      its prefix and ends the pass. */
  function DependenciesStageF(o: Oracle, env: map<string, string>, h: Host, scheme: Scheme, app: AzureApp): (r: (Option<Error>, Host))
    requires IsEnumeration(o.rangeOrder(app.spec.envVars), app.spec.envVars)
    ensures h.calls + [TfManage(app, "apply")] <= r.1.calls
  {
    var h1 := h.Then(TfManage(app, "apply"));
    if o.manage(app, "apply").Some? then
      (Some(NewError("error managing terraform dependencies: " + o.manage(app, "apply").value.msg)), h1)
    else
      var (err, h2) := Dependencies.ManageOtherF(o, env, h1, app);
      if err.Some? then (Some(NewError("error managing other dependencies: " + err.value.msg)), h2)
      else ObjectsStageF(o, env, h2, scheme, app)
  }

  /** Lines 86-117, the steps after the finalizer was handled: the skip decision, the
      "Reconciling external dependencies" state (a failed write ends the pass, a conflict
      quietly), then the dependencies and the objects. */
  function ForwardF(o: Oracle, env: map<string, string>, h: Host, scheme: Scheme, azapp: AzureApp): (r: (Option<Error>, Host))
    requires IsEnumeration(o.rangeOrder(azapp.spec.envVars), azapp.spec.envVars)
    ensures h.calls <= r.1.calls
  {
    var (reconcile, srErr) := ShouldReconcileF(o, env, h.files, azapp);
    if !reconcile then (srErr, h)
    else
      var (app1, e1, h1) := SetProvisionStateF(o, h, "Reconciling external dependencies", azapp);
      if e1.Some? then (IgnoreConflict(e1), h1)
      else DependenciesStageF(o, env, h1, scheme, app1)
  }

  /** Reconcile as written: a missing app ends the pass quietly, a finalizer error ends it with
      that error, and otherwise the forward steps run, whether or not a teardown just happened. */
  function ReconcileF(o: Oracle, env: map<string, string>, h: Host, scheme: Scheme, req: NamespacedName): (r: (Option<Error>, Host))
    requires RangeFits(o, req)
    ensures h.calls <= r.1.calls
  {
    var h0 := h.Then(KubeGet(req));
    match o.get(req)
    case Err(e) => (IgnoreNotFound(e), h0)
    case Ok(azapp) =>
      var (finErr, h1) := ManageFinalizerF(o, h0, azapp);
      if finErr.Some? then (finErr, h1)
      else ForwardF(o, env, h1, scheme, azapp)
  }

  /** Reconcile as evidently intended: the pass ends once a deleted app has been torn down. */
  function ReconcileStoppingAfterTeardownF(o: Oracle, env: map<string, string>, h: Host, scheme: Scheme, req: NamespacedName): (r: (Option<Error>, Host))
    requires RangeFits(o, req)
    ensures h.calls <= r.1.calls
  {
    var h0 := h.Then(KubeGet(req));
    match o.get(req)
    case Err(e) => (IgnoreNotFound(e), h0)
    case Ok(azapp) =>
      var (finErr, h1) := ManageFinalizerF(o, h0, azapp);
      if finErr.Some? then (finErr, h1)
      else if azapp.meta.deletionTimestampSet then (None, h1)
      else ForwardF(o, env, h1, scheme, azapp)
  }

  /** AzureAppReconciler: the embedded client, the scheme, the base directory and the
      Kubernetes client the last pass made. */
  class Reconciler {
    const client: World
    const scheme: Scheme
    const baseDir: string
    var kubeclient: KubeClient?

    constructor (client: World, scheme: Scheme, baseDir: string)
      ensures this.client == client && this.scheme == scheme && this.baseDir == baseDir
      ensures kubeclient == null
    {
      this.client := client;
      this.scheme := scheme;
      this.baseDir := baseDir;
      kubeclient := null;
    }

    method Reconcile(ctx: Context, req: NamespacedName) returns (res: CtrlResult, err: Option<Error>)
      requires RangeFits(client.oracle, req)
      modifies this, client
      ensures (err, client.host) == ReconcileF(client.oracle, client.env, old(client.host), scheme, req)
      ensures res == CtrlResult(false, 0)
      ensures client.oracle.get(req).Err? ==> kubeclient == old(kubeclient)
      ensures client.oracle.get(req).Ok? ==>
        && kubeclient != null && fresh(kubeclient)
        && kubeclient.client == client && kubeclient.context == ctx && kubeclient.applyOptions == ApplyOpts
    {
      res := CtrlResult(false, 0);
      var got := client.Get(req);
      if got.Err? {
        return res, IgnoreNotFound(got.error);
      }
      var azapp := got.value;
      var kc := new KubeClient.NewKubeClient(client, ctx, ApplyOpts);
      kubeclient := kc;

      err := ManageFinalizer(client, kc, azapp);
      if err.Some? {
        return;
      }

      var reconcile, srErr := ShouldReconcileF(client.oracle, client.env, client.host.files, azapp).0,
                              ShouldReconcileF(client.oracle, client.env, client.host.files, azapp).1;
      if !reconcile {
        return res, srErr;
      }

      azapp, err := kc.SetProvisionState("Reconciling external dependencies", azapp);
      if err.Some? {
        return res, IgnoreConflict(err);
      }
      err := client.ManageTerraform(azapp, "apply");
      if err.Some? {
        return res, Some(NewError("error managing terraform dependencies: " + err.value.msg));
      }
      err := Dependencies.ManageOtherExternalDependencies(client, azapp);
      if err.Some? {
        return res, Some(NewError("error managing other dependencies: " + err.value.msg));
      }

      var azappk8s := BuildKubeObjects(client, azapp, scheme);
      if azappk8s.Err? {
        return res, Some(azappk8s.error);
      }
      var applyErr := kc.ApplyAll(azappk8s.value);  // the error is discarded

      azapp := azapp.(status := azapp.status.(deployment := azapp.spec.identifier));

      azapp, err := kc.SetProvisionState("Provisioned", azapp);
      if err.Some? {
        return res, IgnoreConflict(err);
      }
      return res, None;
    }
  }

  /** A failed fetch ends the pass after the Get: quietly when the app is not found, with the
      error otherwise. */
  lemma GetFailureEndsPass(o: Oracle, env: map<string, string>, h: Host, scheme: Scheme, req: NamespacedName)
    requires RangeFits(o, req)
    requires o.get(req).Err?
    ensures var r := ReconcileF(o, env, h, scheme, req);
      && r.1 == h.Then(KubeGet(req))
      && (r.0.None? <==> o.get(req).error.kind == NotFound)
      && (r.0.Some? ==> r.0.value == o.get(req).error)
  {
  }

  /** No call of `s` is a forward step. */
  predicate NoForwardStep(s: seq<Call>) {
    forall i :: 0 <= i < |s| ==> !IsForwardStep(s[i])
  }

  lemma NoForwardStepConcat(s: seq<Call>, t: seq<Call>)
    requires NoForwardStep(s) && NoForwardStep(t)
    ensures NoForwardStep(s + t)
  {
    forall i | 0 <= i < |s + t|
      ensures !IsForwardStep((s + t)[i])
    {
      if i >= |s| {
        assert (s + t)[i] == t[i - |s|];
      }
    }
  }

  /** A forward-free sequence of calls stays so with a non-forward call in front. */
  lemma NoForwardStepAfter(calls: seq<Call>, c: Call, rest: seq<Call>)
    requires !IsForwardStep(c) && calls + [c] <= rest && NoForwardStep(rest[|calls| + 1..])
    ensures NoForwardStep(rest[|calls|..])
  {
    assert rest[|calls|..] == [c] + rest[|calls| + 1..];
    NoForwardStepConcat([c], rest[|calls| + 1..]);
  }

  /** Handling the finalizer never issues a forward step. */
  lemma ManageFinalizerIsNotForward(o: Oracle, h: Host, app: AzureApp)
    ensures NoForwardStep(ManageFinalizerF(o, h, app).1.calls[|h.calls|..])
  {
    var (app1, _, h1) := SetupFinalizerF(o, h, FinalizerName, app);
    var setupCalls := h1.calls[|h.calls|..];
    assert setupCalls == [] || setupCalls == [KubeUpdate(app1)];
    assert NoForwardStep(setupCalls);
    if app.meta.deletionTimestampSet {
      TeardownIsNotForward(o, h, app);
      var r := ManageFinalizerF(o, h, app);
      assert r.1.calls[|h.calls|..] == setupCalls + r.1.calls[|h1.calls|..];
      NoForwardStepConcat(setupCalls, r.1.calls[|h1.calls|..]);
    }
  }

  /** The teardown of a deleted app, after the finalizer is in place, issues no forward step. */
  lemma TeardownIsNotForward(o: Oracle, h: Host, app: AzureApp)
    requires app.meta.deletionTimestampSet
    ensures var h1 := SetupFinalizerF(o, h, FinalizerName, app).2;
      var r := ManageFinalizerF(o, h, app);
      h1.calls <= r.1.calls && NoForwardStep(r.1.calls[|h1.calls|..])
  {
    var (app1, _, h1) := SetupFinalizerF(o, h, FinalizerName, app);
    TeardownOrder(o, h, app);
    var app2 := app1.(status := app1.status.(provisioningState := "Removing Azure resources"));
    var app3 := WithFinalizers(app2, Without(app2.meta.finalizers, FinalizerName));
    var steps := [KubeStatusUpdate(app2), TfManage(app2, "destroy"), KubeUpdate(app3)];
    assert NoForwardStep(steps);
    var n := if o.statusUpdate(app2).Some? then 1 else if o.manage(app2, "destroy").Some? then 2 else 3;
    assert NoForwardStep(steps[..n]);
    assert ManageFinalizerF(o, h, app).1.calls[|h1.calls|..] == steps[..n];
  }

  /** An error from ManageFinalizer ends the pass before shouldReconcile: the pass returns it and
      issues no forward step. */
  lemma FinalizerErrorEndsPass(o: Oracle, env: map<string, string>, h: Host, scheme: Scheme, req: NamespacedName)
    requires RangeFits(o, req)
    requires o.get(req).Ok?
    ensures var h0 := h.Then(KubeGet(req));
      var (finErr, h1) := ManageFinalizerF(o, h0, o.get(req).value);
      var r := ReconcileF(o, env, h, scheme, req);
      finErr.Some? ==>
        && r == (finErr, h1)
        && NoForwardStep(r.1.calls[|h.calls|..])
  {
    var h0 := h.Then(KubeGet(req));
    ManageFinalizerIsNotForward(o, h0, o.get(req).value);
    var (finErr, h1) := ManageFinalizerF(o, h0, o.get(req).value);
    if finErr.Some? {
      NoForwardStepAfter(h.calls, KubeGet(req), h1.calls);
    }
  }

  /** When shouldReconcile says no, the pass returns its error (possibly none) and issues nothing
      further: no status write, no dependency call, no apply. */
  lemma SkipIssuesNothing(o: Oracle, env: map<string, string>, h: Host, scheme: Scheme, azapp: AzureApp)
    requires IsEnumeration(o.rangeOrder(azapp.spec.envVars), azapp.spec.envVars)
    ensures var (reconcile, srErr) := ShouldReconcileF(o, env, h.files, azapp);
      !reconcile ==> ForwardF(o, env, h, scheme, azapp) == (srErr, h)
  {
  }

  /** A failing status write ends the pass; a conflict is swallowed, any other error returned. */
  lemma StatusWriteFailureEndsPass(o: Oracle, env: map<string, string>, h: Host, scheme: Scheme, azapp: AzureApp)
    requires IsEnumeration(o.rangeOrder(azapp.spec.envVars), azapp.spec.envVars)
    requires ShouldReconcileF(o, env, h.files, azapp).0
    ensures var (app1, e1, h1) := SetProvisionStateF(o, h, "Reconciling external dependencies", azapp);
      var r := ForwardF(o, env, h, scheme, azapp);
      && (e1.Some? ==> r.1 == h1 && (r.0.None? <==> e1.value.kind == Conflict) && (r.0.Some? ==> r.0 == e1))
      && (e1.None? ==> r == DependenciesStageF(o, env, h1, scheme, app1))
  {
  }

  /** A terraform failure or a failure of the other dependencies is returned with its prefix and
      ends the pass: nothing after it is issued. */
  lemma DependencyFailuresWrapped(o: Oracle, env: map<string, string>, h: Host, scheme: Scheme, app: AzureApp)
    requires IsEnumeration(o.rangeOrder(app.spec.envVars), app.spec.envVars)
    ensures var h1 := h.Then(TfManage(app, "apply"));
      var tfErr := o.manage(app, "apply");
      var (e2, h2) := Dependencies.ManageOtherF(o, env, h1, app);
      var r := DependenciesStageF(o, env, h, scheme, app);
      && (tfErr.Some? ==> r == (Some(NewError("error managing terraform dependencies: " + tfErr.value.msg)), h1))
      && (tfErr.None? && e2.Some? ==> r == (Some(NewError("error managing other dependencies: " + e2.value.msg)), h2))
      && (tfErr.None? && e2.None? ==> r == ObjectsStageF(o, env, h2, scheme, app))
  {
  }

  /** Once the objects are built, ApplyAll's patches follow in list order and the last call is
      the "Provisioned" write of the app with Deployment set to its Identifier, whatever ApplyAll
      returned; the pass then succeeds exactly when that write does or conflicts. A failed build
      ends the pass with its error. */
  lemma ObjectsStageOrder(o: Oracle, env: map<string, string>, h: Host, scheme: Scheme, app: AzureApp)
    requires IsEnumeration(o.rangeOrder(app.spec.envVars), app.spec.envVars)
    ensures var (objs, h1) := BuildObjectsF(o, env, h, app, scheme);
      var r := ObjectsStageF(o, env, h, scheme, app);
      && h.calls <= h1.calls <= r.1.calls
      && (objs.Err? ==> r == (Some(objs.error), h1))
      && (objs.Ok? ==>
            var last := app.(status := Status(app.spec.identifier, "Provisioned"));
            && r.1.calls == h1.calls + Patches(objs.value[..Attempted(o, objs.value)], ApplyOpts) + [KubeStatusUpdate(last)]
            && (r.0.None? <==> o.statusUpdate(last).None? || o.statusUpdate(last).value.kind == Conflict))
  {
    var (objs, h1) := BuildObjectsF(o, env, h, app, scheme);
    if objs.Ok? {
      ApplyAllPatchesInOrder(o, h1, objs.value, ApplyOpts);
    }
  }

  /** A full pass issues its forward effects in the fixed order: the "Reconciling external
      dependencies" write, terraform apply, the other dependencies and the credential read, the
      patches of ApplyAll, and last the "Provisioned" write, which carries
      Status.Deployment == Identifier. */
  lemma FullPassOrder(o: Oracle, env: map<string, string>, h: Host, scheme: Scheme, azapp: AzureApp)
    requires IsEnumeration(o.rangeOrder(azapp.spec.envVars), azapp.spec.envVars)
    requires ShouldReconcileF(o, env, h.files, azapp).0
    ensures var (app1, e1, h1) := SetProvisionStateF(o, h, "Reconciling external dependencies", azapp);
      var (e3, h3) := Dependencies.ManageOtherF(o, env, h1.Then(TfManage(app1, "apply")), app1);
      var (objs, h4) := BuildObjectsF(o, env, h3, app1, scheme);
      var r := ForwardF(o, env, h, scheme, azapp);
      e1.None? && o.manage(app1, "apply").None? && e3.None? && objs.Ok? ==>
        var last := app1.(status := Status(azapp.spec.identifier, "Provisioned"));
        && app1.status.provisioningState == "Reconciling external dependencies"
        && h.calls + [KubeStatusUpdate(app1), TfManage(app1, "apply")] <= h4.calls
        && r.1.calls == h4.calls + Patches(objs.value[..Attempted(o, objs.value)], ApplyOpts) + [KubeStatusUpdate(last)]
        && last.spec == azapp.spec && last.meta == azapp.meta
  {
    var (app1, e1, h1) := SetProvisionStateF(o, h, "Reconciling external dependencies", azapp);
    var h2 := h1.Then(TfManage(app1, "apply"));
    var (e3, h3) := Dependencies.ManageOtherF(o, env, h2, app1);
    var (objs, h4) := BuildObjectsF(o, env, h3, app1, scheme);
    if e1.None? && o.manage(app1, "apply").None? && e3.None? && objs.Ok? {
      ForwardReachesObjects(o, env, h, scheme, azapp);
      ObjectsStageOrder(o, env, h3, scheme, app1);
    }
  }

  /** When the status write, terraform apply and the other dependencies succeed, the pass goes on
      to the objects stage after exactly those calls. */
  lemma ForwardReachesObjects(o: Oracle, env: map<string, string>, h: Host, scheme: Scheme, azapp: AzureApp)
    requires IsEnumeration(o.rangeOrder(azapp.spec.envVars), azapp.spec.envVars)
    requires ShouldReconcileF(o, env, h.files, azapp).0
    ensures var (app1, e1, h1) := SetProvisionStateF(o, h, "Reconciling external dependencies", azapp);
      var h2 := h1.Then(TfManage(app1, "apply"));
      var (e3, h3) := Dependencies.ManageOtherF(o, env, h2, app1);
      e1.None? && o.manage(app1, "apply").None? && e3.None? ==>
        && ForwardF(o, env, h, scheme, azapp) == ObjectsStageF(o, env, h3, scheme, app1)
        && h.calls + [KubeStatusUpdate(app1), TfManage(app1, "apply")] == h2.calls <= h3.calls
  {
  }

  /** Finding, as written: an app being deleted whose teardown succeeded, and whose variables
      file is absent, is provisioned again by the same pass: terraform apply follows the destroy.
      The pass then writes the status from the app as fetched, which is stale whenever the
      teardown's own writes changed the object; the API server would refuse such a write with a
      conflict (swallowed) or, once the last finalizer is gone, with NotFound. The oracle has no
      resource versions, so the input is narrowed to the case where neither teardown write
      changes the stored object: our finalizer is absent (adding it to an object being deleted is
      refused, and that error is discarded), another finalizer keeps the object alive, and the
      provisioning state already reads "Removing Azure resources". */
  lemma ReprovisionAfterTeardown(o: Oracle, env: map<string, string>, h: Host, scheme: Scheme, req: NamespacedName)
    requires RangeFits(o, req)
    requires o.get(req).Ok? && o.get(req).value.meta.deletionTimestampSet
    requires var azapp := o.get(req).value;
      && FinalizerName !in azapp.meta.finalizers && |azapp.meta.finalizers| > 0
      && azapp.status.provisioningState == "Removing Azure resources"
    requires var azapp := o.get(req).value;
      ManageFinalizerF(o, h.Then(KubeGet(req)), azapp).0.None?
    requires PreviousSpecPath(env, o.get(req).value) !in h.files
    requires var azapp := o.get(req).value;
      o.statusUpdate(azapp.(status := azapp.status.(provisioningState := "Reconciling external dependencies"))).None?
    ensures var azapp := o.get(req).value;
      var app1 := azapp.(status := azapp.status.(provisioningState := "Reconciling external dependencies"));
      var s := ReconcileF(o, env, h, scheme, req).1.calls[|h.calls|..];
      exists i, j :: 0 <= i < j < |s| && s[i].TfManage? && s[i].phase == "destroy" && s[j] == TfManage(app1, "apply")
  {
    var azapp := o.get(req).value;
    var h0 := h.Then(KubeGet(req));
    var (app1s, _, hs) := SetupFinalizerF(o, h0, FinalizerName, azapp);
    var app2 := app1s.(status := app1s.status.(provisioningState := "Removing Azure resources"));
    var app3 := WithFinalizers(app2, Without(app2.meta.finalizers, FinalizerName));
    var (_, h1) := ManageFinalizerF(o, h0, azapp);
    TeardownThenForward(o, env, h, scheme, req);
    ShouldReconcileCases(o, env, h1.files, azapp);
    ForwardBegins(o, env, h1, scheme, azapp);
    var app1 := azapp.(status := azapp.status.(provisioningState := "Reconciling external dependencies"));
    DestroyThenApply(h.calls, hs.calls, h1.calls, ReconcileF(o, env, h, scheme, req).1.calls,
                     KubeStatusUpdate(app2), TfManage(app2, "destroy"), KubeUpdate(app3),
                     KubeStatusUpdate(app1), TfManage(app1, "apply"));
  }

  /** The order argument behind the finding, on the call sequences alone: the teardown's destroy
      lies among the calls the pass issued, and the forward apply comes after it. */
  lemma DestroyThenApply(pre: seq<Call>, setup: seq<Call>, torn: seq<Call>, all: seq<Call>,
                         a: Call, destroy: Call, b: Call, x: Call, apply: Call)
    requires pre <= setup && torn == setup + [a, destroy, b] && torn + [x, apply] <= all
    ensures var s := all[|pre|..];
      exists i, j :: 0 <= i < j < |s| && s[i] == destroy && s[j] == apply
  {
    var s := all[|pre|..];
    var i := |setup| - |pre| + 1;
    var j := |torn| - |pre| + 1;
    assert s[i] == all[|setup| + 1] == torn[|setup| + 1] == destroy;
    assert s[j] == all[|torn| + 1] == apply;
  }

  /** A successful teardown of a deleted app is followed by the forward steps, after the calls
      of the teardown and with the files left as they were. */
  lemma TeardownThenForward(o: Oracle, env: map<string, string>, h: Host, scheme: Scheme, req: NamespacedName)
    requires RangeFits(o, req)
    requires o.get(req).Ok? && o.get(req).value.meta.deletionTimestampSet
    requires ManageFinalizerF(o, h.Then(KubeGet(req)), o.get(req).value).0.None?
    ensures var azapp := o.get(req).value;
      var h0 := h.Then(KubeGet(req));
      var (app1, _, hs) := SetupFinalizerF(o, h0, FinalizerName, azapp);
      var app2 := app1.(status := app1.status.(provisioningState := "Removing Azure resources"));
      var app3 := WithFinalizers(app2, Without(app2.meta.finalizers, FinalizerName));
      var h1 := ManageFinalizerF(o, h0, azapp).1;
      && h.calls <= h0.calls <= hs.calls
      && h1.calls == hs.calls + [KubeStatusUpdate(app2), TfManage(app2, "destroy"), KubeUpdate(app3)]
      && h1.files == h.files
      && ReconcileF(o, env, h, scheme, req) == ForwardF(o, env, h1, scheme, azapp)
  {
    TeardownOrder(o, h.Then(KubeGet(req)), o.get(req).value);
  }

  /** A pass that reconciles and whose first status write succeeds starts with that write and
      terraform apply. */
  lemma ForwardBegins(o: Oracle, env: map<string, string>, h: Host, scheme: Scheme, azapp: AzureApp)
    requires IsEnumeration(o.rangeOrder(azapp.spec.envVars), azapp.spec.envVars)
    requires ShouldReconcileF(o, env, h.files, azapp).0
    requires o.statusUpdate(azapp.(status := azapp.status.(provisioningState := "Reconciling external dependencies"))).None?
    ensures var app1 := azapp.(status := azapp.status.(provisioningState := "Reconciling external dependencies"));
      h.calls + [KubeStatusUpdate(app1), TfManage(app1, "apply")] <= ForwardF(o, env, h, scheme, azapp).1.calls
  {
  }

  /** Corrected: once a deleted app has been torn down the pass issues no forward step at all. */
  lemma TeardownEndsPass(o: Oracle, env: map<string, string>, h: Host, scheme: Scheme, req: NamespacedName)
    requires RangeFits(o, req)
    requires o.get(req).Ok? && o.get(req).value.meta.deletionTimestampSet
    ensures var r := ReconcileStoppingAfterTeardownF(o, env, h, scheme, req);
      NoForwardStep(r.1.calls[|h.calls|..])
  {
    var h0 := h.Then(KubeGet(req));
    ManageFinalizerIsNotForward(o, h0, o.get(req).value);
    var (_, h1) := ManageFinalizerF(o, h0, o.get(req).value);
    assert ReconcileStoppingAfterTeardownF(o, env, h, scheme, req).1 == h1;
    NoForwardStepAfter(h.calls, KubeGet(req), h1.calls);
  }
}
