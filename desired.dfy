/** The desired Kubernetes objects of an AzureApp (controllers/helpers.go:29-176): a Secret with
    the app's credential, a Deployment running its image with its variables and the credential,
    a NodePort Service and an Ingress routing its URL to that Service. All of them are named
    after Spec.Identifier and owned by the AzureApp. */
module Desired {
  import opened Base
  import opened Api
  import opened KubeTypes
  import opened External

  /** `{"azureapp": identifier}`: the label that ties the pods, the Service and the Secret together. */
  function Labels(identifier: string): map<string, string> {
    map["azureapp" := identifier]
  }

  /** A missing key of a Go map reads as the empty string. */
  function Lookup(m: map<string, string>, key: string): string {
    if key in m then m[key] else ""
  }

  /** Metadata named after the identifier, in the app's namespace, with no owner yet. */
  function NamedAfter(app: AzureApp, labels: map<string, string>): ObjectMeta {
    ObjectMeta(app.spec.identifier, app.meta.namespace, labels, [])
  }

  /** desiredSecret: StringData holds exactly AZURE_APP_ID and AZURE_APP_SECRET, from the
      credential's appId and appSecret. */
  function DesiredSecret(cred: map<string, string>, app: AzureApp, scheme: Scheme): (r: Result<Secret>)
    ensures r.Ok? <==> scheme.knowsAzureApp
    ensures r.Ok? ==>
      && r.value.typeMeta == TypeMeta("v1", "Secret")
      && r.value.meta.name == app.spec.identifier && r.value.meta.namespace == app.meta.namespace
      && r.value.meta.labels == Labels(app.spec.identifier)
      && r.value.meta.ownerRefs == [ControllerRef(app)]
      && r.value.stringData.Keys == {"AZURE_APP_ID", "AZURE_APP_SECRET"}
      && r.value.stringData["AZURE_APP_ID"] == Lookup(cred, "appId")
      && r.value.stringData["AZURE_APP_SECRET"] == Lookup(cred, "appSecret")
  {
    var secretMap := map["AZURE_APP_ID" := Lookup(cred, "appId"), "AZURE_APP_SECRET" := Lookup(cred, "appSecret")];
    var meta :- SetControllerReference(app, NamedAfter(app, Labels(app.spec.identifier)), scheme);
    Ok(Secret(TypeMeta("v1", "Secret"), meta, secretMap))
  }

  /** The plain variables, one per key of `keys`, in that order. */
  function PlainEnv(keys: seq<string>, m: map<string, string>): (r: seq<EnvVar>)
    requires forall i :: 0 <= i < |keys| ==> keys[i] in m
    ensures |r| == |keys|
  {
    if keys == [] then []
    else PlainEnv(keys[..|keys| - 1], m) + [EnvVar(keys[|keys| - 1], m[keys[|keys| - 1]], None)]
  }

  /** The two variables that read the credential from the Secret named `secretName`. */
  function SecretEnv(secretName: string): seq<EnvVar> {
    [EnvVar("AZURE_APP_ID", "", Some(SecretKeyRef(secretName, "AZURE_APP_ID"))),
     EnvVar("AZURE_APP_SECRET", "", Some(SecretKeyRef(secretName, "AZURE_APP_SECRET")))]
  }

  /** The container's environment when `keys` is the order the map range visits EnvVars in. */
  function DeploymentEnv(app: AzureApp, secretName: string, keys: seq<string>): seq<EnvVar>
    requires IsEnumeration(keys, app.spec.envVars)
  {
    PlainEnv(keys, app.spec.envVars) + SecretEnv(secretName)
  }

  /** desiredDeployment, as a value: one replica of one container named after the identifier,
      running ContainerImage, selected by and labelled with the app's label. */
  function DesiredDeploymentF(app: AzureApp, appCreds: Secret, keys: seq<string>, scheme: Scheme): (r: Result<Deployment>)
    requires IsEnumeration(keys, app.spec.envVars)
    ensures r.Ok? <==> scheme.knowsAzureApp
    ensures r.Ok? ==>
      && r.value.typeMeta == TypeMeta("apps/v1", "Deployment")
      && r.value.meta.name == app.spec.identifier && r.value.meta.namespace == app.meta.namespace
      && r.value.meta.ownerRefs == [ControllerRef(app)]
      && r.value.replicas == 1
      && r.value.selector == Labels(app.spec.identifier) && r.value.templateLabels == Labels(app.spec.identifier)
      && r.value.containers == [Container(app.spec.identifier, app.spec.containerImage, DeploymentEnv(app, appCreds.meta.name, keys))]
  {
    var depl := Deployment(
      TypeMeta("apps/v1", "Deployment"),
      NamedAfter(app, map[]),
      1,
      Labels(app.spec.identifier),
      Labels(app.spec.identifier),
      [Container(app.spec.identifier, app.spec.containerImage, DeploymentEnv(app, appCreds.meta.name, keys))]);
    var meta :- SetControllerReference(app, depl.meta, scheme);
    Ok(depl.(meta := meta))
  }

  /** desiredDeployment: the variables are appended one by one while ranging over EnvVars in the
      order `keys`, then the two credential references. */
  method DesiredDeployment(app: AzureApp, appCreds: Secret, keys: seq<string>, scheme: Scheme) returns (r: Result<Deployment>)
    requires IsEnumeration(keys, app.spec.envVars)
    ensures r == DesiredDeploymentF(app, appCreds, keys, scheme)
  {
    var replicas: Int32 := 1;
    var envVars: seq<EnvVar> := [];
    var i := 0;
    while i < |keys|
      invariant 0 <= i <= |keys|
      invariant envVars == PlainEnv(keys[..i], app.spec.envVars)
    {
      assert keys[..i + 1][..i] == keys[..i];
      var k := keys[i];
      envVars := envVars + [EnvVar(k, app.spec.envVars[k], None)];
      i := i + 1;
    }
    assert keys[..|keys|] == keys;
    envVars := envVars + [EnvVar("AZURE_APP_ID", "", Some(SecretKeyRef(appCreds.meta.name, "AZURE_APP_ID")))];
    envVars := envVars + [EnvVar("AZURE_APP_SECRET", "", Some(SecretKeyRef(appCreds.meta.name, "AZURE_APP_SECRET")))];
    assert envVars == DeploymentEnv(app, appCreds.meta.name, keys);
    var depl := Deployment(
      TypeMeta("apps/v1", "Deployment"),
      NamedAfter(app, map[]),
      replicas,
      Labels(app.spec.identifier),
      Labels(app.spec.identifier),
      [Container(app.spec.identifier, app.spec.containerImage, envVars)]);
    var meta := SetControllerReference(app, depl.meta, scheme);
    if meta.Err? {
      return Err(meta.error);
    }
    return Ok(depl.(meta := meta.value));
  }

  /** desiredService: one TCP port "http" whose port and target port are ServingPort, of type
      NodePort, selecting the app's pods. */
  function DesiredService(app: AzureApp, scheme: Scheme): (r: Result<Service>)
    ensures r.Ok? <==> scheme.knowsAzureApp
    ensures r.Ok? ==>
      && r.value.typeMeta == TypeMeta("v1", "Service")
      && r.value.meta.name == app.spec.identifier && r.value.meta.namespace == app.meta.namespace
      && r.value.meta.labels == Labels(app.spec.identifier)
      && r.value.meta.ownerRefs == [ControllerRef(app)]
      && r.value.ports == [ServicePort("http", app.spec.servingPort, "TCP", app.spec.servingPort)]
      && r.value.selector == Labels(app.spec.identifier)
      && r.value.serviceType == "NodePort"
  {
    var svc := Service(
      TypeMeta("v1", "Service"),
      NamedAfter(app, Labels(app.spec.identifier)),
      [ServicePort("http", app.spec.servingPort, "TCP", app.spec.servingPort)],
      Labels(app.spec.identifier),
      "NodePort");
    var meta :- SetControllerReference(app, svc.meta, scheme);
    Ok(svc.(meta := meta))
  }

  /** desiredIngress: exactly one rule, host Url, path "/" of type Prefix, to the Service named
      after the identifier at ServingPort. */
  function DesiredIngress(app: AzureApp, scheme: Scheme): (r: Result<Ingress>)
    ensures r.Ok? <==> scheme.knowsAzureApp
    ensures r.Ok? ==>
      && r.value.typeMeta == TypeMeta("networking.k8s.io/v1", "Ingress")
      && r.value.meta.name == app.spec.identifier && r.value.meta.namespace == app.meta.namespace
      && r.value.meta.ownerRefs == [ControllerRef(app)]
      && r.value.rules == [IngressRule(app.spec.url, [IngressPath("/", "Prefix", app.spec.identifier, app.spec.servingPort)])]
  {
    var ing := Ingress(
      TypeMeta("networking.k8s.io/v1", "Ingress"),
      NamedAfter(app, map[]),
      [IngressRule(app.spec.url, [IngressPath("/", "Prefix", app.spec.identifier, app.spec.servingPort)])]);
    var meta :- SetControllerReference(app, ing.meta, scheme);
    Ok(ing.(meta := meta))
  }

  /** The i-th plain variable is the i-th key visited, with its value, inlined. */
  lemma {:induction false} PlainEnvAt(keys: seq<string>, m: map<string, string>, i: int)
    requires forall j :: 0 <= j < |keys| ==> keys[j] in m
    requires 0 <= i < |keys|
    ensures PlainEnv(keys, m)[i] == EnvVar(keys[i], m[keys[i]], None)
    decreases |keys|
  {
    if i < |keys| - 1 {
      var init := keys[..|keys| - 1];
      PlainEnvAt(init, m, i);
    }
  }

  /** A list without repetitions has as many distinct elements as entries. */
  lemma {:induction false} DistinctCardinality(ks: seq<string>)
    requires forall i, j :: 0 <= i < j < |ks| ==> ks[i] != ks[j]
    ensures |set k | k in ks| == |ks|
    decreases |ks|
  {
    if ks != [] {
      var init := ks[..|ks| - 1];
      DistinctCardinality(init);
      assert (set k | k in ks) == (set k | k in init) + {ks[|ks| - 1]};
    }
  }

  /** An enumeration of a map visits every one of its keys. */
  lemma EnumerationCovers(ks: seq<string>, m: map<string, string>)
    requires IsEnumeration(ks, m)
    ensures forall k :: k in m <==> k in ks
  {
    var visited := set k | k in ks;
    DistinctCardinality(ks);
    assert visited <= m.Keys;
    assert |m.Keys - visited| == |m.Keys| - |visited|;
  }

  /** The container environment holds one inlined variable per EnvVars entry, in the order the
      range visits them, then exactly the two credential variables, which reference the Secret
      and inline nothing: |EnvVars| + 2 entries in all, and every EnvVars entry appears. */
  lemma DeploymentEnvShape(app: AzureApp, secretName: string, keys: seq<string>)
    requires IsEnumeration(keys, app.spec.envVars)
    ensures var env := DeploymentEnv(app, secretName, keys);
      && |env| == |app.spec.envVars| + 2
      && (forall i :: 0 <= i < |keys| ==> env[i] == EnvVar(keys[i], app.spec.envVars[keys[i]], None))
      && env[|keys|] == EnvVar("AZURE_APP_ID", "", Some(SecretKeyRef(secretName, "AZURE_APP_ID")))
      && env[|keys| + 1] == EnvVar("AZURE_APP_SECRET", "", Some(SecretKeyRef(secretName, "AZURE_APP_SECRET")))
    ensures var env := DeploymentEnv(app, secretName, keys);
      forall k :: k in app.spec.envVars ==>
        exists i :: 0 <= i < |app.spec.envVars| && env[i] == EnvVar(k, app.spec.envVars[k], None)
  {
    var m := app.spec.envVars;
    var env := DeploymentEnv(app, secretName, keys);
    forall i | 0 <= i < |keys|
      ensures env[i] == EnvVar(keys[i], m[keys[i]], None)
    {
      PlainEnvAt(keys, m, i);
    }
    EnumerationCovers(keys, m);
    forall k | k in m
      ensures exists i :: 0 <= i < |m| && env[i] == EnvVar(k, m[k], None)
    {
      var i :| 0 <= i < |keys| && keys[i] == k;
      assert env[i] == EnvVar(keys[i], m[keys[i]], None);
    }
  }

  /** The objects agree with one another: the Service selects exactly the pods the Deployment
      creates and exposes the port the Ingress routes to, under the name the Ingress names; the
      Deployment's credential references name the Secret and keys the Secret holds. */
  lemma ObjectsAgree(cred: map<string, string>, app: AzureApp, keys: seq<string>, scheme: Scheme)
    requires IsEnumeration(keys, app.spec.envVars)
    requires scheme.knowsAzureApp
    ensures var secret := DesiredSecret(cred, app, scheme).value;
      var depl := DesiredDeploymentF(app, secret, keys, scheme).value;
      var svc := DesiredService(app, scheme).value;
      var ing := DesiredIngress(app, scheme).value;
      && svc.selector == depl.templateLabels
      && ing.rules[0].paths[0].serviceName == svc.meta.name
      && ing.rules[0].paths[0].servicePort == svc.ports[0].port
      && (forall e :: e in depl.containers[0].env && e.valueFrom.Some? ==>
            e.valueFrom.value.secretName == secret.meta.name && e.valueFrom.value.key in secret.stringData)
  {
    var secret := DesiredSecret(cred, app, scheme).value;
    var env := DeploymentEnv(app, secret.meta.name, keys);
    DeploymentEnvShape(app, secret.meta.name, keys);
    forall e | e in env && e.valueFrom.Some?
      ensures e.valueFrom.value.secretName == secret.meta.name && e.valueFrom.value.key in secret.stringData
    {
      var i :| 0 <= i < |env| && env[i] == e;
    }
  }
}
