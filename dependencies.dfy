/** Dispatch to the external dependencies of an AzureApp
    (controllers/internal/dependencies/dependencies.go): terraform with the plan-file name and the
    apply/destroy phase switch, the database user when the app asks for one, and the certificate
    lookup. Resource names are derived from the identifier. */
module Dependencies {
  import opened Base
  import opened Api
  import opened External
  import Tf

  /** TfDependenciesClient: holds the terraform client, or nil when making it failed. */
  datatype TfDependenciesClient = TfDependenciesClient(tfc: Option<Tf.TfClient>)

  /** The database server every app's database lives on. */
  const SqlServer := "prdazureappoperatorsv1"

  function PlanFile(name: string): string {
    "plan-" + name
  }

  function DatabaseName(identifier: string): string {
    identifier + "-db"
  }

  function DatabaseUser(identifier: string): string {
    identifier + "-app"
  }

  function KeyVaultName(identifier: string): string {
    identifier + "-kv"
  }

  /** NewTerraformClient: a terraform client from TF_EXECUTABLE_PATH and TF_BASE_PATH, handed back
      with the error (the client is nil exactly when there is one). */
  function NewClientF(o: Oracle, env: map<string, string>, h: Host, app: AzureApp): (r: (TfDependenciesClient, Option<Error>, Host))
    ensures r.1.None? <==> r.0.tfc.Some?
    ensures r.0.tfc.Some? ==>
      r.0.tfc.value == Tf.TfClient(Tf.Workdir(Getenv(env, "TF_BASE_PATH"), app.meta.name), Getenv(env, "TF_EXECUTABLE_PATH"))
  {
    var (c, h1) := Tf.NewClientF(o, h, Getenv(env, "TF_EXECUTABLE_PATH"), Getenv(env, "TF_BASE_PATH"), app);
    match c
    case Ok(t) => (TfDependenciesClient(Some(t)), None, h1)
    case Err(e) => (TfDependenciesClient(None), Some(e), h1)
  }

  method NewTerraformClient(w: World, app: AzureApp) returns (tfd: TfDependenciesClient, err: Option<Error>)
    modifies w
    ensures (tfd, err, w.host) == NewClientF(w.oracle, w.env, old(w.host), app)
  {
    var tf := Tf.NewTerraformClient(w, Getenv(w.env, "TF_EXECUTABLE_PATH"), Getenv(w.env, "TF_BASE_PATH"), app);
    if tf.Ok? {
      return TfDependenciesClient(Some(tf.value)), None;
    }
    return TfDependenciesClient(None), Some(tf.error);
  }

  /** CheckTerraformableExternalDependencies: write the variables file, then plan into
      `plan-<Name>`. A failed write returns ("", false, err) and plans nothing. The method of a
      nil client dereferences nil, hence the requirement. */
  function CheckF(o: Oracle, h: Host, tfd: TfDependenciesClient, app: AzureApp): (r: (string, bool, Option<Error>, Host))
    requires tfd.tfc.Some?
    ensures var varFile := Tf.VarFilePath(tfd.tfc.value.workdir);
      o.writeFault(varFile).Some? ==>
        && r.0 == "" && !r.1 && r.2 == Some(NewError(o.writeFault(varFile).value))
        && r.3.calls == h.calls + [WriteFile(varFile, Encoded(app.spec))]
    ensures var wd := tfd.tfc.value.workdir;
      o.writeFault(Tf.VarFilePath(wd)).None? ==>
        && r.0 == PlanFile(app.meta.name)
        && r.3.calls == h.calls + [WriteFile(Tf.VarFilePath(wd), Encoded(app.spec)), TfPlan(wd, Some(PlanFile(app.meta.name)))]
        && r.3.files == h.files[Tf.VarFilePath(wd) := Encoded(app.spec)]
        && (r.2.None? <==> o.plan(wd).Ok?)
        && (r.1 <==> o.plan(wd).Ok? && o.plan(wd).value)
  {
    var tfc := tfd.tfc.value;
    var (genErr, h1) := Tf.GenerateVarFileF(o, h, tfc, app);
    if genErr.Some? then ("", false, genErr, h1)
    else
      var planfile := PlanFile(app.meta.name);
      var h2 := h1.Then(TfPlan(tfc.workdir, Some(planfile)));
      match o.plan(tfc.workdir)
      case Err(e) => (planfile, false, Some(e), h2)
      case Ok(changed) => (planfile, changed, None, h2)
  }

  method CheckTerraformableExternalDependencies(w: World, tfd: TfDependenciesClient, app: AzureApp)
    returns (planfile: string, changed: bool, err: Option<Error>)
    requires tfd.tfc.Some?
    modifies w
    ensures (planfile, changed, err, w.host) == CheckF(w.oracle, old(w.host), tfd, app)
  {
    err := Tf.GenerateTerraformVarFile(w, tfd.tfc.value, app);
    if err.Some? {
      return "", false, err;
    }
    planfile := PlanFile(app.meta.name);
    var plan := w.Plan(tfd.tfc.value.workdir, Some(planfile));
    if plan.Err? {
      return planfile, false, Some(plan.error);
    }
    return planfile, plan.value, None;
  }

  /** ManageTerraformableExternalDependencies: "apply" applies, "destroy" destroys, any other
      phase is refused with "invalid phase" before terraform is touched. Terraform's apply takes
      no plan file, so `planfile` reaches nothing. */
  function ManageF(o: Oracle, h: Host, tfd: TfDependenciesClient, app: AzureApp, phase: string, planfile: string): (r: (Option<Error>, Host))
    requires phase == "apply" || phase == "destroy" ==> tfd.tfc.Some?
    ensures phase == "apply" ==> r == Tf.ApplyF(o, h, tfd.tfc.value)
    ensures phase == "destroy" ==> r == Tf.DestroyF(o, h, tfd.tfc.value, app)
    ensures phase != "apply" && phase != "destroy" ==> r == (Some(NewError("invalid phase")), h)
  {
    match phase
    case "apply" => Tf.ApplyF(o, h, tfd.tfc.value)
    case "destroy" => Tf.DestroyF(o, h, tfd.tfc.value, app)
    case _ => (Some(NewError("invalid phase")), h)
  }

  method ManageTerraformableExternalDependencies(w: World, tfd: TfDependenciesClient, app: AzureApp, phase: string, planfile: string)
    returns (err: Option<Error>)
    requires phase == "apply" || phase == "destroy" ==> tfd.tfc.Some?
    modifies w
    ensures (err, w.host) == ManageF(w.oracle, old(w.host), tfd, app, phase, planfile)
  {
    match phase
    case "apply" =>
      err := Tf.ReconcileAzureResources(w, tfd.tfc.value);
    case "destroy" =>
      err := Tf.DestroyAzureResources(w, tfd.tfc.value, app);
    case _ =>
      err := Some(NewError("invalid phase"));
  }

  /** Refusing an unknown phase never reaches the Terraform client, so it needs none: with no
      client at all the phase is still refused with "invalid phase" and nothing happens. */
  lemma InvalidPhaseNeedsNoClient(o: Oracle, h: Host, app: AzureApp, phase: string, planfile: string)
    requires phase != "apply" && phase != "destroy"
    ensures ManageF(o, h, TfDependenciesClient(None), app, phase, planfile) == (Some(NewError("invalid phase")), h)
    ensures forall tfd: TfDependenciesClient :: ManageF(o, h, tfd, app, phase, planfile) == ManageF(o, h, TfDependenciesClient(None), app, phase, planfile)
  {
  }

  /** GetTerraformAppCredentialOutput: a fresh terraform client, then its credential outputs. */
  function CredentialOutputF(o: Oracle, env: map<string, string>, h: Host, app: AzureApp): (r: (Result<map<string, string>>, Host))
    ensures var (c, h1) := Tf.NewClientF(o, h, Getenv(env, "TF_EXECUTABLE_PATH"), Getenv(env, "TF_BASE_PATH"), app);
      && (c.Err? ==> r == (Err(c.error), h1))
      && (c.Ok? ==> r == Tf.CredentialF(o, h1, c.value))
    ensures r.0.Ok? ==> r.0.value.Keys == {"appId", "appSecret"}
    ensures h.calls <= r.1.calls
  {
    var (c, h1) := Tf.NewClientF(o, h, Getenv(env, "TF_EXECUTABLE_PATH"), Getenv(env, "TF_BASE_PATH"), app);
    match c
    case Err(e) => (Err(e), h1)
    case Ok(tf) => Tf.CredentialF(o, h1, tf)
  }

  method GetTerraformAppCredentialOutput(w: World, app: AzureApp) returns (r: Result<map<string, string>>)
    modifies w
    ensures (r, w.host) == CredentialOutputF(w.oracle, w.env, old(w.host), app)
  {
    var tf := Tf.NewTerraformClient(w, Getenv(w.env, "TF_EXECUTABLE_PATH"), Getenv(w.env, "TF_BASE_PATH"), app);
    if tf.Err? {
      return Err(tf.error);
    }
    r := Tf.GetAzureAppCredential(w, tf.value);
  }

  /** ManageOtherExternalDependencies: when the database is enabled, connect as the operator's
      service principal to `<Identifier>-db` on the shared server, create user `<Identifier>-app`,
      then make it owner, stopping at the first failure. */
  function ManageOtherF(o: Oracle, env: map<string, string>, h: Host, app: AzureApp): (r: (Option<Error>, Host))
    ensures r.1.files == h.files
    ensures h.calls <= r.1.calls
    ensures !app.spec.enableDatabase ==> r == (None, h)
    ensures var id := app.spec.identifier;
      var open := SqlOpen(Getenv(env, "ARM_CLIENT_ID"), Getenv(env, "ARM_CLIENT_SECRET"), SqlServer, DatabaseName(id));
      var openErr := o.sqlOpen(Getenv(env, "ARM_CLIENT_ID"), Getenv(env, "ARM_CLIENT_SECRET"), SqlServer, DatabaseName(id));
      app.spec.enableDatabase ==>
        && (openErr.Some? ==> r == (openErr, h.Then(open)))
        && (openErr.None? && o.createUser(DatabaseUser(id)).Some? ==>
              r == (o.createUser(DatabaseUser(id)), h.Then(open).Then(SqlCreateUser(DatabaseUser(id)))))
        && (openErr.None? && o.createUser(DatabaseUser(id)).None? ==>
              r == (o.grantOwner(DatabaseUser(id)),
                    h.Then(open).Then(SqlCreateUser(DatabaseUser(id))).Then(SqlGrantOwner(DatabaseUser(id)))))
  {
    if !app.spec.enableDatabase then (None, h)
    else
      var appId, appSecret := Getenv(env, "ARM_CLIENT_ID"), Getenv(env, "ARM_CLIENT_SECRET");
      var database := DatabaseName(app.spec.identifier);
      var h1 := h.Then(SqlOpen(appId, appSecret, SqlServer, database));
      if o.sqlOpen(appId, appSecret, SqlServer, database).Some? then (o.sqlOpen(appId, appSecret, SqlServer, database), h1)
      else
        var username := DatabaseUser(app.spec.identifier);
        var h2 := h1.Then(SqlCreateUser(username));
        if o.createUser(username).Some? then (o.createUser(username), h2)
        else (o.grantOwner(username), h2.Then(SqlGrantOwner(username)))
  }

  method ManageOtherExternalDependencies(w: World, app: AzureApp) returns (err: Option<Error>)
    modifies w
    ensures (err, w.host) == ManageOtherF(w.oracle, w.env, old(w.host), app)
  {
    if app.spec.enableDatabase {
      err := w.SqlOpen(Getenv(w.env, "ARM_CLIENT_ID"), Getenv(w.env, "ARM_CLIENT_SECRET"), SqlServer, DatabaseName(app.spec.identifier));
      if err.Some? {
        return;
      }
      var username := DatabaseUser(app.spec.identifier);
      err := w.CreateUser(username);
      if err.Some? {
        return;
      }
      err := w.GrantOwner(username);
      if err.Some? {
        return;
      }
    }
    return None;
  }

  /** CheckCertificate: an Azure client, then the "ssl" certificate of key vault `<Identifier>-kv`. */
  function CheckCertificateF(o: Oracle, h: Host, app: AzureApp): (r: (bool, Option<Error>, Host))
    ensures o.azClient.Some? ==> r == (false, o.azClient, h.Then(AzNewClient))
    ensures o.azClient.None? ==>
      var vault := KeyVaultName(app.spec.identifier);
      r == (o.certificate(vault).0, o.certificate(vault).1, h.Then(AzNewClient).Then(CertLookup(vault)))
  {
    var h1 := h.Then(AzNewClient);
    if o.azClient.Some? then (false, o.azClient, h1)
    else
      var vault := KeyVaultName(app.spec.identifier);
      var (exists_, err) := o.certificate(vault);
      (exists_, err, h1.Then(CertLookup(vault)))
  }

  method CheckCertificate(w: World, app: AzureApp) returns (exists_: bool, err: Option<Error>)
    modifies w
    ensures (exists_, err, w.host) == CheckCertificateF(w.oracle, old(w.host), app)
  {
    err := w.NewAzureClient();
    if err.Some? {
      return false, err;
    }
    exists_, err := w.CertificateExists(KeyVaultName(app.spec.identifier));
  }

  /** The grant of ownership is only ever issued after the connection and the user creation
      succeeded, and a disabled database issues no SQL at all. */
  lemma GrantOnlyAfterCreate(o: Oracle, env: map<string, string>, h: Host, app: AzureApp)
    ensures var r := ManageOtherF(o, env, h, app);
      var id := app.spec.identifier;
      SqlGrantOwner(DatabaseUser(id)) in r.1.calls[|h.calls|..] ==>
        && app.spec.enableDatabase
        && o.sqlOpen(Getenv(env, "ARM_CLIENT_ID"), Getenv(env, "ARM_CLIENT_SECRET"), SqlServer, DatabaseName(id)).None?
        && o.createUser(DatabaseUser(id)).None?
    ensures var r := ManageOtherF(o, env, h, app);
      r.0.None? <==>
        || !app.spec.enableDatabase
        || (&& o.sqlOpen(Getenv(env, "ARM_CLIENT_ID"), Getenv(env, "ARM_CLIENT_SECRET"), SqlServer, DatabaseName(app.spec.identifier)).None?
            && o.createUser(DatabaseUser(app.spec.identifier)).None?
            && o.grantOwner(DatabaseUser(app.spec.identifier)).None?)
  {
    var r := ManageOtherF(o, env, h, app);
    var id := app.spec.identifier;
    var open := SqlOpen(Getenv(env, "ARM_CLIENT_ID"), Getenv(env, "ARM_CLIENT_SECRET"), SqlServer, DatabaseName(id));
    if !app.spec.enableDatabase {
      assert r.1.calls[|h.calls|..] == [];
    } else if o.sqlOpen(Getenv(env, "ARM_CLIENT_ID"), Getenv(env, "ARM_CLIENT_SECRET"), SqlServer, DatabaseName(id)).Some? {
      assert r.1.calls[|h.calls|..] == [open];
    } else if o.createUser(DatabaseUser(id)).Some? {
      assert r.1.calls[|h.calls|..] == [open, SqlCreateUser(DatabaseUser(id))];
    }
  }
}
