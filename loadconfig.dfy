/** The value-returning form of the settings (controllers/config/main.go): LoadConfig builds a
    fresh Config from the environment and changes nothing. Its getEnv and getRequiredEnv are
    the same lookups as those of controllers/config/config.go, so the ones of module EnvConfig are
    used. A panic of a required lookup is an error result. */
module ConfigLoad {
  import opened Base
  import opened EnvConfig

  /** Config: the nine settings LoadConfig returns. */
  datatype Config = Config(
    terraformBasePath: string, terraformExecutablePath: string,
    armTenantID: string, armSubscriptionID: string, armClientID: string, armClientSecret: string,
    resourceGroup: string, storageAccount: string, container: string)

  /** LoadConfig requires the first eight variables SetConfig reads, StepKey(0) to StepKey(7),
      in the same order. */
  const LoadRequired := 8

  /** LoadConfig: the fields evaluated in order; the first unset required variable panics, and
      TF_BACKEND_CONTAINER falls back to "state". */
  function LoadConfig(env: map<string, string>): (r: Result<Config>)
    ensures r.Ok? ==>
      && TfBasePathVar in env && r.value.terraformBasePath == env[TfBasePathVar]
      && TfExecutablePathVar in env && r.value.terraformExecutablePath == env[TfExecutablePathVar]
      && ArmTenantIdVar in env && r.value.armTenantID == env[ArmTenantIdVar]
      && ArmSubscriptionIdVar in env && r.value.armSubscriptionID == env[ArmSubscriptionIdVar]
      && ArmClientIdVar in env && r.value.armClientID == env[ArmClientIdVar]
      && ArmClientSecretVar in env && r.value.armClientSecret == env[ArmClientSecretVar]
      && TfBackendResourceGroupVar in env && r.value.resourceGroup == env[TfBackendResourceGroupVar]
      && TfBackendStorageAccountVar in env && r.value.storageAccount == env[TfBackendStorageAccountVar]
      && r.value.container == (if TfBackendContainerVar in env then env[TfBackendContainerVar] else DefaultContainer)
  {
    var basePath :- GetRequiredEnv(env, TfBasePathVar);
    var execPath :- GetRequiredEnv(env, TfExecutablePathVar);
    var tenant :- GetRequiredEnv(env, ArmTenantIdVar);
    var subscription :- GetRequiredEnv(env, ArmSubscriptionIdVar);
    var clientId :- GetRequiredEnv(env, ArmClientIdVar);
    var clientSecret :- GetRequiredEnv(env, ArmClientSecretVar);
    var resourceGroup :- GetRequiredEnv(env, TfBackendResourceGroupVar);
    var storageAccount :- GetRequiredEnv(env, TfBackendStorageAccountVar);
    Ok(Config(basePath, execPath, tenant, subscription, clientId, clientSecret,
              resourceGroup, storageAccount, GetEnv(env, TfBackendContainerVar, DefaultContainer)))
  }

  /** LoadConfig fails exactly when one of its eight required variables is unset, and then with
      the panic of the first of them in evaluation order. */
  lemma LoadConfigFailsIffMissing(env: map<string, string>)
    ensures LoadConfig(env).Ok? <==> forall i :: 0 <= i < LoadRequired ==> StepKey(i) in env
    ensures LoadConfig(env).Err? ==>
      exists i :: && 0 <= i < LoadRequired && StepKey(i) !in env
                  && (forall j :: 0 <= j < i ==> StepKey(j) in env)
                  && LoadConfig(env).error == NewError(RequiredMessage(StepKey(i)))
  {
    FirstPanicIsFirstUnset(env);
    var k := FirstPanic(env);
    if k < LoadRequired {
      assert StepKey(k) !in env;
      assert LoadConfig(env).error == NewError(RequiredMessage(StepKey(k)));
    }
  }

  /** LoadConfig and SetConfig read the same variables into the fields they share, and whenever
      SetConfig runs to the end LoadConfig succeeds; LoadConfig does not need DEFAULT_SQL_SERVER,
      and its ResourceGroup, StorageAccount and Container are the backend settings SetConfig
      stores under TerraformBackend* while leaving its own fields of those names untouched. */
  lemma LoadAgreesWithSet(env: map<string, string>, before: ConfigOptions)
    requires FirstPanic(env) == StepCount
    ensures var s := SetConfigF(env, before).1;
      var r := LoadConfig(env);
      && r.Ok?
      && r.value.terraformBasePath == s.terraformBasePath
      && r.value.terraformExecutablePath == s.terraformExecutablePath
      && r.value.armTenantID == s.armTenantID
      && r.value.armSubscriptionID == s.armSubscriptionID
      && r.value.armClientID == s.armClientID
      && r.value.armClientSecret == s.armClientSecret
      && r.value.resourceGroup == s.terraformBackendResourceGroup
      && r.value.storageAccount == s.terraformBackendStorageAccount
      && r.value.container == s.terraformBackendContainer
      && s.resourceGroup == before.resourceGroup
  {
    FirstPanicIsFirstUnset(env);
  }

  /** LoadConfig can succeed where SetConfig panics: with every variable but DEFAULT_SQL_SERVER
      set, LoadConfig returns a Config and SetConfig stops at its last assignment. */
  lemma LoadSucceedsWithoutSqlServer(env: map<string, string>)
    requires forall i :: 0 <= i < LoadRequired ==> StepKey(i) in env
    requires DefaultSqlServerVar !in env
    ensures LoadConfig(env).Ok?
    ensures FirstPanic(env) == 9 && SetConfigF(env, ConfigOptions("", "", "", "", "", "", "", "", "", "", "", "", "")).0.Some?
  {
    LoadConfigFailsIffMissing(env);
  }
}
