/** The operator's settings read from the environment (controllers/config/config.go): the
    global ConfigOptions whose fields SetConfig assigns one by one from environment variables.
    A required variable that is unset makes SetConfig panic; here the panic is an error result
    that ends SetConfig with the fields assigned so far. */
module EnvConfig {
  import opened Base

  /** The panic text of getRequiredEnv. */
  function RequiredMessage(key: string): string {
    "Environment variable " + key + " is required but not set"
  }

  /** getEnv: the variable's value whenever it is set, even to the empty string; the default
      only when it is unset. */
  function GetEnv(env: map<string, string>, key: string, defaultVal: string): (r: string)
    ensures key in env ==> r == env[key]
    ensures key !in env ==> r == defaultVal
  {
    if key in env then env[key] else defaultVal
  }

  /** getRequiredEnv: the variable's value, or the panic naming it when it is unset. */
  function GetRequiredEnv(env: map<string, string>, key: string): (r: Result<string>)
    ensures r.Ok? <==> key in env
    ensures r.Ok? ==> r.value == env[key]
    ensures r.Err? ==> r.error == NewError(RequiredMessage(key))
  {
    if key in env then Ok(env[key]) else Err(NewError(RequiredMessage(key)))
  }

  /** A required variable that is set reads the same through getEnv, whatever the default; an
      unset one is the only case in which the two differ. */
  lemma RequiredAgreesWithOptional(env: map<string, string>, key: string, defaultVal: string)
    ensures GetRequiredEnv(env, key).Ok? ==> GetRequiredEnv(env, key).value == GetEnv(env, key, defaultVal)
    ensures GetRequiredEnv(env, key).Err? <==> GetEnv(env, key, defaultVal) == defaultVal && key !in env
  {
  }

  /** ConfigOptions: the thirteen settings, as one struct value. */
  datatype ConfigOptions = ConfigOptions(
    terraformBasePath: string, terraformExecutablePath: string,
    terraformBackendResourceGroup: string, terraformBackendStorageAccount: string,
    terraformBackendContainer: string,
    armTenantID: string, armSubscriptionID: string, armClientID: string, armClientSecret: string,
    resourceGroup: string, storageAccount: string, container: string,
    defaultSQLServer: string)

  /** The environment variables SetConfig reads. */
  const TfBasePathVar := "TF_BASE_PATH"
  const TfExecutablePathVar := "TF_EXECUTABLE_PATH"
  const ArmTenantIdVar := "ARM_TENANT_ID"
  const ArmSubscriptionIdVar := "ARM_SUBSCRIPTION_ID"
  const ArmClientIdVar := "ARM_CLIENT_ID"
  const ArmClientSecretVar := "ARM_CLIENT_SECRET"
  const TfBackendResourceGroupVar := "TF_BACKEND_RESOURCE_GROUP"
  const TfBackendStorageAccountVar := "TF_BACKEND_STORAGE_ACCOUNT"
  const TfBackendContainerVar := "TF_BACKEND_CONTAINER"
  const DefaultSqlServerVar := "DEFAULT_SQL_SERVER"

  /** The backend container when TF_BACKEND_CONTAINER is unset. */
  const DefaultContainer := "state"

  /** The variable SetConfig's assignment `i` reads, for i < StepCount; the ninth,
      TF_BACKEND_CONTAINER, is read with getEnv and the default "state", the others with
      getRequiredEnv. */
  function StepKey(i: nat): string {
    if i == 0 then TfBasePathVar
    else if i == 1 then TfExecutablePathVar
    else if i == 2 then ArmTenantIdVar
    else if i == 3 then ArmSubscriptionIdVar
    else if i == 4 then ArmClientIdVar
    else if i == 5 then ArmClientSecretVar
    else if i == 6 then TfBackendResourceGroupVar
    else if i == 7 then TfBackendStorageAccountVar
    else if i == 8 then TfBackendContainerVar
    else DefaultSqlServerVar
  }

  /** The number of assignments SetConfig makes. */
  const StepCount := 10

  /** The position of TF_BACKEND_CONTAINER, the one optional read. */
  const ContainerStep := 8

  /** The nine variables SetConfig cannot do without. */
  const RequiredKeys: seq<string> := [
    TfBasePathVar, TfExecutablePathVar, ArmTenantIdVar, ArmSubscriptionIdVar,
    ArmClientIdVar, ArmClientSecretVar, TfBackendResourceGroupVar,
    TfBackendStorageAccountVar, DefaultSqlServerVar]

  /** The assignment at which SetConfig panics, or 10 when it runs to the end: the first
      required read, in order, whose variable is unset. */
  function FirstPanic(env: map<string, string>): (k: nat)
    ensures k <= StepCount && k != ContainerStep
  {
    if TfBasePathVar !in env then 0
    else if TfExecutablePathVar !in env then 1
    else if ArmTenantIdVar !in env then 2
    else if ArmSubscriptionIdVar !in env then 3
    else if ArmClientIdVar !in env then 4
    else if ArmClientSecretVar !in env then 5
    else if TfBackendResourceGroupVar !in env then 6
    else if TfBackendStorageAccountVar !in env then 7
    else if DefaultSqlServerVar !in env then 9
    else 10
  }

  /** The value a read that succeeded returned; only meaningful for a variable that is set. */
  function Read(env: map<string, string>, key: string): string {
    GetEnv(env, key, "")
  }

  /** The fields after the first `n` assignments of SetConfig, starting from `before`: each
      field whose assignment is among them holds the value read, every other field its
      earlier value. ResourceGroup, StorageAccount and Container have no assignment. */
  function AfterSteps(env: map<string, string>, before: ConfigOptions, n: nat): (r: ConfigOptions) {
    ConfigOptions(
      if n > 0 then Read(env, TfBasePathVar) else before.terraformBasePath,
      if n > 1 then Read(env, TfExecutablePathVar) else before.terraformExecutablePath,
      if n > 6 then Read(env, TfBackendResourceGroupVar) else before.terraformBackendResourceGroup,
      if n > 7 then Read(env, TfBackendStorageAccountVar) else before.terraformBackendStorageAccount,
      if n > 8 then GetEnv(env, TfBackendContainerVar, DefaultContainer) else before.terraformBackendContainer,
      if n > 2 then Read(env, ArmTenantIdVar) else before.armTenantID,
      if n > 3 then Read(env, ArmSubscriptionIdVar) else before.armSubscriptionID,
      if n > 4 then Read(env, ArmClientIdVar) else before.armClientID,
      if n > 5 then Read(env, ArmClientSecretVar) else before.armClientSecret,
      before.resourceGroup, before.storageAccount, before.container,
      if n > 9 then Read(env, DefaultSqlServerVar) else before.defaultSQLServer)
  }

  /** SetConfig's outcome: the panic of the first unset required variable, if any, and the
      fields after the assignments made before it. */
  function SetConfigF(env: map<string, string>, before: ConfigOptions): (r: (Option<Error>, ConfigOptions))
    ensures r.0.None? <==> FirstPanic(env) == StepCount
    ensures r.0.Some? ==> r.0.value == NewError(RequiredMessage(StepKey(FirstPanic(env))))
  {
    var p := FirstPanic(env);
    (if p < StepCount then Some(NewError(RequiredMessage(StepKey(p)))) else None, AfterSteps(env, before, p))
  }

  /** The panic position is the first required read, in order, of an unset variable. */
  lemma FirstPanicIsFirstUnset(env: map<string, string>)
    ensures var k := FirstPanic(env);
      && (forall i :: 0 <= i < k && i != ContainerStep ==> StepKey(i) in env)
      && (k < StepCount ==> StepKey(k) !in env)
  {
  }

  /** SetConfig panics exactly when one of the nine required variables is unset;
      TF_BACKEND_CONTAINER may be absent. */
  lemma SetConfigPanicsIffRequiredMissing(env: map<string, string>)
    ensures FirstPanic(env) < StepCount <==> exists k :: k in RequiredKeys && k !in env
  {
    FirstPanicIsFirstUnset(env);
    var p := FirstPanic(env);
    if p < StepCount {
      assert StepKey(p) in RequiredKeys;
    } else {
      forall k | k in RequiredKeys
        ensures k in env
      {
        var i :| 0 <= i < |RequiredKeys| && RequiredKeys[i] == k;
        var j := if i < ContainerStep then i else i + 1;
        assert StepKey(j) == k;
      }
    }
  }

  /** The panic names the first unset required variable in assignment order: every required
      variable read before it is set. */
  lemma {:induction false} SetConfigPanicNamesFirstMissing(env: map<string, string>)
    ensures var p := FirstPanic(env);
      p < StepCount ==>
        && StepKey(p) in RequiredKeys && StepKey(p) !in env
        && forall i :: 0 <= i < p && StepKey(i) in RequiredKeys ==> StepKey(i) in env
  {
    FirstPanicIsFirstUnset(env);
    var p := FirstPanic(env);
    if p < StepCount {
      assert StepKey(p) == RequiredKeys[if p < ContainerStep then p else p - 1];
    }
  }

  /** After a SetConfig that does not panic, every assigned field holds its variable's value,
      the backend container is TF_BACKEND_CONTAINER or DefaultContainer, and ResourceGroup,
      StorageAccount and Container keep whatever they held before. */
  lemma SetConfigFieldValues(env: map<string, string>, before: ConfigOptions)
    requires forall k :: k in RequiredKeys ==> k in env
    ensures FirstPanic(env) == StepCount
    ensures var r := AfterSteps(env, before, StepCount);
      && r.terraformBasePath == env[TfBasePathVar]
      && r.terraformExecutablePath == env[TfExecutablePathVar]
      && r.armTenantID == env[ArmTenantIdVar]
      && r.armSubscriptionID == env[ArmSubscriptionIdVar]
      && r.armClientID == env[ArmClientIdVar]
      && r.armClientSecret == env[ArmClientSecretVar]
      && r.terraformBackendResourceGroup == env[TfBackendResourceGroupVar]
      && r.terraformBackendStorageAccount == env[TfBackendStorageAccountVar]
      && r.terraformBackendContainer == (if TfBackendContainerVar in env then env[TfBackendContainerVar] else DefaultContainer)
      && r.defaultSQLServer == env[DefaultSqlServerVar]
      && r.resourceGroup == before.resourceGroup
      && r.storageAccount == before.storageAccount
      && r.container == before.container
  {
    SetConfigPanicsIffRequiredMissing(env);
  }

  /** A panic keeps the assignments made before it and none after: each of the ten assigned
      fields holds its variable's value when its assignment comes before the panic, and its
      earlier value when it comes at or after it; the three unassigned fields are never touched. */
  lemma SetConfigPanicKeepsPrefix(env: map<string, string>, before: ConfigOptions)
    ensures var p := FirstPanic(env);
      var r := AfterSteps(env, before, p);
      && (p > 0 ==> TfBasePathVar in env && r.terraformBasePath == env[TfBasePathVar])
      && (p <= 0 ==> r.terraformBasePath == before.terraformBasePath)
      && (p > 1 ==> TfExecutablePathVar in env && r.terraformExecutablePath == env[TfExecutablePathVar])
      && (p <= 1 ==> r.terraformExecutablePath == before.terraformExecutablePath)
      && (p > 2 ==> ArmTenantIdVar in env && r.armTenantID == env[ArmTenantIdVar])
      && (p <= 2 ==> r.armTenantID == before.armTenantID)
      && (p > 3 ==> ArmSubscriptionIdVar in env && r.armSubscriptionID == env[ArmSubscriptionIdVar])
      && (p <= 3 ==> r.armSubscriptionID == before.armSubscriptionID)
      && (p > 4 ==> ArmClientIdVar in env && r.armClientID == env[ArmClientIdVar])
      && (p <= 4 ==> r.armClientID == before.armClientID)
      && (p > 5 ==> ArmClientSecretVar in env && r.armClientSecret == env[ArmClientSecretVar])
      && (p <= 5 ==> r.armClientSecret == before.armClientSecret)
      && (p > 6 ==> TfBackendResourceGroupVar in env && r.terraformBackendResourceGroup == env[TfBackendResourceGroupVar])
      && (p <= 6 ==> r.terraformBackendResourceGroup == before.terraformBackendResourceGroup)
      && (p > 7 ==> TfBackendStorageAccountVar in env && r.terraformBackendStorageAccount == env[TfBackendStorageAccountVar])
      && (p <= 7 ==> r.terraformBackendStorageAccount == before.terraformBackendStorageAccount)
      && (p > 8 ==> r.terraformBackendContainer == GetEnv(env, TfBackendContainerVar, DefaultContainer))
      && (p <= 8 ==> r.terraformBackendContainer == before.terraformBackendContainer)
      && (p > 9 ==> DefaultSqlServerVar in env && r.defaultSQLServer == env[DefaultSqlServerVar])
      && (p <= 9 ==> r.defaultSQLServer == before.defaultSQLServer)
      && r.resourceGroup == before.resourceGroup
      && r.storageAccount == before.storageAccount
      && r.container == before.container
  {
    FirstPanicIsFirstUnset(env);
  }

  /** The package variable `Config = &ConfigOptions{}`: the one settings struct, whose fields
      SetConfig assigns in place. */
  class ConfigVar {
    var value: ConfigOptions

    /** `&ConfigOptions{}`: every field empty. */
    constructor ()
      ensures value == ConfigOptions("", "", "", "", "", "", "", "", "", "", "", "", "")
    {
      value := ConfigOptions("", "", "", "", "", "", "", "", "", "", "", "", "");
    }

    /** SetConfig: the ten assignments in order; the first unset required variable ends it with
        the panic, every field assigned before it keeping its new value. */
    method SetConfig(env: map<string, string>) returns (err: Option<Error>)
      modifies this
      ensures (err, value) == SetConfigF(env, old(value))
    {
      var v: Result<string>;
      v := GetRequiredEnv(env, TfBasePathVar);
      if v.Err? { return Some(v.error); }
      value := value.(terraformBasePath := v.value);
      v := GetRequiredEnv(env, TfExecutablePathVar);
      if v.Err? { return Some(v.error); }
      value := value.(terraformExecutablePath := v.value);
      v := GetRequiredEnv(env, ArmTenantIdVar);
      if v.Err? { return Some(v.error); }
      value := value.(armTenantID := v.value);
      v := GetRequiredEnv(env, ArmSubscriptionIdVar);
      if v.Err? { return Some(v.error); }
      value := value.(armSubscriptionID := v.value);
      v := GetRequiredEnv(env, ArmClientIdVar);
      if v.Err? { return Some(v.error); }
      value := value.(armClientID := v.value);
      v := GetRequiredEnv(env, ArmClientSecretVar);
      if v.Err? { return Some(v.error); }
      value := value.(armClientSecret := v.value);
      v := GetRequiredEnv(env, TfBackendResourceGroupVar);
      if v.Err? { return Some(v.error); }
      value := value.(terraformBackendResourceGroup := v.value);
      v := GetRequiredEnv(env, TfBackendStorageAccountVar);
      if v.Err? { return Some(v.error); }
      value := value.(terraformBackendStorageAccount := v.value);
      value := value.(terraformBackendContainer := GetEnv(env, TfBackendContainerVar, DefaultContainer));
      v := GetRequiredEnv(env, DefaultSqlServerVar);
      if v.Err? { return Some(v.error); }
      value := value.(defaultSQLServer := v.value);
      return None;
    }
  }
}
