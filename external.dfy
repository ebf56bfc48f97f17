/** Everything outside the operator's own code: the Kubernetes API server, the file system, the
    terraform executable, Azure and the SQL server. Each external operation is an abstract effect:
    it is appended to a trace of calls, and an `Oracle` decides what it answers. The file system
    is the one piece of outside state the model keeps explicitly, as a map from path to content. */
module External {
  import opened Base
  import opened Api
  import opened KubeTypes

  type Byte = b: int | 0 <= b < 256

  /** What a file holds. JSON encoding is abstract and injective: `Encoded(spec)` is
      json.Marshal(spec), and it is the only content json.Unmarshal turns back into a Spec.
      `Rendered` is a text/template executed with the given field values. */
  datatype FileContent =
    | Encoded(spec: Spec)
    | Rendered(template: FileContent, data: map<string, string>)
    | Bytes(raw: seq<Byte>)

  /** Every external operation the operator can issue, with the arguments that identify it. */
  datatype Call =
    | KubeGet(key: NamespacedName)                    // client.Get
    | KubeUpdate(app: AzureApp)                       // client.Update
    | KubeStatusUpdate(app: AzureApp)                 // client.Status().Update
    | KubePatch(obj: KubeObject, options: seq<PatchOption>)  // client.Patch with client.Apply
    | Mkdir(path: string)                             // os.Mkdir
    | CreateFile(path: string)                        // os.Create
    | WriteFile(path: string, content: FileContent)   // ioutil.WriteFile
    | Chdir(path: string)                             // os.Chdir
    | TfNew(workdir: string, execPath: string)        // tfexec.NewTerraform
    | TfPlan(workdir: string, out: Option<string>)    // terraform plan [-out=...]
    | TfApply(workdir: string)                        // terraform apply
    | TfDestroy(workdir: string)                      // terraform destroy
    | TfOutput(workdir: string)                       // terraform output
    | TfManage(app: AzureApp, phase: string)          // the controller's two-argument terraform call
    | BlobDelete(url: string)                         // blockblob Client.Delete
    | AzNewClient                                     // az.NewAzureClient
    | CertLookup(vault: string)                       // AzClient.SslCertificateExists
    | SqlOpen(appId: string, appSecret: string, server: string, database: string)  // db.NewServicePrincipalClient
    | SqlCreateUser(user: string)                     // SqlClient.CreateUser
    | SqlGrantOwner(user: string)                     // SqlClient.GrantOwner

  /** How the outside world answers. Nothing is assumed of the answers except, for `rangeOrder`,
      the Go runtime's guarantee that ranging over a map visits each key once: the operations that
      range over a map require IsEnumeration of the order for that map. */
  datatype Oracle = Oracle(
    get: NamespacedName -> Result<AzureApp>,
    update: AzureApp -> Option<Error>,
    statusUpdate: AzureApp -> Option<Error>,
    patch: KubeObject -> Option<Error>,
    mkdir: string -> Option<Error>,
    readFault: string -> Option<string>,   // a read error other than "does not exist"
    writeFault: string -> Option<string>,  // a create or write error
    chdir: string -> Option<Error>,
    newTerraform: (string, string) -> Option<Error>,
    plan: string -> Result<bool>,
    apply: string -> Option<Error>,
    destroy: string -> Option<Error>,
    output: string -> Result<map<string, string>>,
    manage: (AzureApp, string) -> Option<Error>,
    blobDelete: string -> Option<Error>,
    azClient: Option<Error>,
    certificate: string -> (bool, Option<Error>),
    sqlOpen: (string, string, string, string) -> Option<Error>,
    createUser: string -> Option<Error>,
    grantOwner: string -> Option<Error>,
    rangeOrder: map<string, string> -> seq<string>)

  /** The outside state: the calls issued so far, in order, and the file system. */
  datatype Host = Host(calls: seq<Call>, files: map<string, FileContent>) {
    function Then(c: Call): Host {
      Host(calls + [c], files)
    }
  }

  /** `ks` lists every key of `m` exactly once. */
  predicate IsEnumeration(ks: seq<string>, m: map<string, string>) {
    && |ks| == |m|
    && (forall i :: 0 <= i < |ks| ==> ks[i] in m)
    && (forall i, j :: 0 <= i < j < |ks| ==> ks[i] != ks[j])
  }

  /** os.Getenv: the empty string for an unset variable. */
  function Getenv(env: map<string, string>, key: string): string {
    if key in env then env[key] else ""
  }

  /** ioutil.ReadFile. */
  function ReadFile(o: Oracle, files: map<string, FileContent>, path: string): (r: Result<FileContent>)
    ensures r.Ok? <==> path in files && o.readFault(path).None?
    ensures r.Ok? ==> r.value == files[path]
    ensures path !in files ==> r.Err? && r.error.kind == NotExist
  {
    if path !in files then Err(Error(NotExist, "open " + path + ": no such file or directory"))
    else if o.readFault(path).Some? then Err(NewError(o.readFault(path).value))
    else Ok(files[path])
  }

  /** ioutil.WriteFile, as a change of the outside state. */
  function WriteFileF(o: Oracle, h: Host, path: string, content: FileContent): (Option<Error>, Host) {
    var h1 := h.Then(WriteFile(path, content));
    if o.writeFault(path).Some? then (Some(NewError(o.writeFault(path).value)), h1)
    else (None, h1.(files := h1.files[path := content]))
  }

  /** os.Create: creates or truncates the file. */
  function CreateFileF(o: Oracle, h: Host, path: string): (Option<Error>, Host) {
    var h1 := h.Then(CreateFile(path));
    if o.writeFault(path).Some? then (Some(NewError(o.writeFault(path).value)), h1)
    else (None, h1.(files := h1.files[path := Bytes([])]))
  }

  /** The operator's handle on the outside world: the embedded client.Client of the reconciler,
      the process environment and everything else the Go code reaches through packages. */
  class World {
    const oracle: Oracle
    const env: map<string, string>
    var host: Host

    constructor (oracle: Oracle, env: map<string, string>, host: Host)
      ensures this.oracle == oracle && this.env == env && this.host == host
    {
      this.oracle := oracle;
      this.env := env;
      this.host := host;
    }

    method Get(key: NamespacedName) returns (r: Result<AzureApp>)
      modifies this
      ensures host == old(host).Then(Call.KubeGet(key)) && r == oracle.get(key)
    {
      host := host.Then(Call.KubeGet(key));
      r := oracle.get(key);
    }

    method Update(app: AzureApp) returns (err: Option<Error>)
      modifies this
      ensures host == old(host).Then(Call.KubeUpdate(app)) && err == oracle.update(app)
    {
      host := host.Then(Call.KubeUpdate(app));
      err := oracle.update(app);
    }

    method StatusUpdate(app: AzureApp) returns (err: Option<Error>)
      modifies this
      ensures host == old(host).Then(Call.KubeStatusUpdate(app)) && err == oracle.statusUpdate(app)
    {
      host := host.Then(Call.KubeStatusUpdate(app));
      err := oracle.statusUpdate(app);
    }

    method Patch(obj: KubeObject, options: seq<PatchOption>) returns (err: Option<Error>)
      modifies this
      ensures host == old(host).Then(Call.KubePatch(obj, options)) && err == oracle.patch(obj)
    {
      host := host.Then(Call.KubePatch(obj, options));
      err := oracle.patch(obj);
    }

    method Mkdir(path: string) returns (err: Option<Error>)
      modifies this
      ensures host == old(host).Then(Call.Mkdir(path)) && err == oracle.mkdir(path)
    {
      host := host.Then(Call.Mkdir(path));
      err := oracle.mkdir(path);
    }

    method Create(path: string) returns (err: Option<Error>)
      modifies this
      ensures (err, host) == CreateFileF(oracle, old(host), path)
    {
      host := host.Then(Call.CreateFile(path));
      if oracle.writeFault(path).Some? {
        err := Some(NewError(oracle.writeFault(path).value));
      } else {
        host := host.(files := host.files[path := Bytes([])]);
        err := None;
      }
    }

    method WriteFile(path: string, content: FileContent) returns (err: Option<Error>)
      modifies this
      ensures (err, host) == WriteFileF(oracle, old(host), path, content)
    {
      host := host.Then(Call.WriteFile(path, content));
      if oracle.writeFault(path).Some? {
        err := Some(NewError(oracle.writeFault(path).value));
      } else {
        host := host.(files := host.files[path := content]);
        err := None;
      }
    }

    method Chdir(path: string) returns (err: Option<Error>)
      modifies this
      ensures host == old(host).Then(Call.Chdir(path)) && err == oracle.chdir(path)
    {
      host := host.Then(Call.Chdir(path));
      err := oracle.chdir(path);
    }

    method NewTerraform(workdir: string, execPath: string) returns (err: Option<Error>)
      modifies this
      ensures host == old(host).Then(Call.TfNew(workdir, execPath)) && err == oracle.newTerraform(workdir, execPath)
    {
      host := host.Then(Call.TfNew(workdir, execPath));
      err := oracle.newTerraform(workdir, execPath);
    }

    method Plan(workdir: string, out: Option<string>) returns (r: Result<bool>)
      modifies this
      ensures host == old(host).Then(Call.TfPlan(workdir, out)) && r == oracle.plan(workdir)
    {
      host := host.Then(Call.TfPlan(workdir, out));
      r := oracle.plan(workdir);
    }

    method Apply(workdir: string) returns (err: Option<Error>)
      modifies this
      ensures host == old(host).Then(Call.TfApply(workdir)) && err == oracle.apply(workdir)
    {
      host := host.Then(Call.TfApply(workdir));
      err := oracle.apply(workdir);
    }

    method Destroy(workdir: string) returns (err: Option<Error>)
      modifies this
      ensures host == old(host).Then(Call.TfDestroy(workdir)) && err == oracle.destroy(workdir)
    {
      host := host.Then(Call.TfDestroy(workdir));
      err := oracle.destroy(workdir);
    }

    method Output(workdir: string) returns (r: Result<map<string, string>>)
      modifies this
      ensures host == old(host).Then(Call.TfOutput(workdir)) && r == oracle.output(workdir)
    {
      host := host.Then(Call.TfOutput(workdir));
      r := oracle.output(workdir);
    }

    method ManageTerraform(app: AzureApp, phase: string) returns (err: Option<Error>)
      modifies this
      ensures host == old(host).Then(Call.TfManage(app, phase)) && err == oracle.manage(app, phase)
    {
      host := host.Then(Call.TfManage(app, phase));
      err := oracle.manage(app, phase);
    }

    method DeleteBlob(url: string) returns (err: Option<Error>)
      modifies this
      ensures host == old(host).Then(Call.BlobDelete(url)) && err == oracle.blobDelete(url)
    {
      host := host.Then(Call.BlobDelete(url));
      err := oracle.blobDelete(url);
    }

    method NewAzureClient() returns (err: Option<Error>)
      modifies this
      ensures host == old(host).Then(Call.AzNewClient) && err == oracle.azClient
    {
      host := host.Then(Call.AzNewClient);
      err := oracle.azClient;
    }

    method CertificateExists(vault: string) returns (exists_: bool, err: Option<Error>)
      modifies this
      ensures host == old(host).Then(Call.CertLookup(vault)) && (exists_, err) == oracle.certificate(vault)
    {
      host := host.Then(Call.CertLookup(vault));
      exists_, err := oracle.certificate(vault).0, oracle.certificate(vault).1;
    }

    method SqlOpen(appId: string, appSecret: string, server: string, database: string) returns (err: Option<Error>)
      modifies this
      ensures host == old(host).Then(Call.SqlOpen(appId, appSecret, server, database))
      ensures err == oracle.sqlOpen(appId, appSecret, server, database)
    {
      host := host.Then(Call.SqlOpen(appId, appSecret, server, database));
      err := oracle.sqlOpen(appId, appSecret, server, database);
    }

    method CreateUser(user: string) returns (err: Option<Error>)
      modifies this
      ensures host == old(host).Then(Call.SqlCreateUser(user)) && err == oracle.createUser(user)
    {
      host := host.Then(Call.SqlCreateUser(user));
      err := oracle.createUser(user);
    }

    method GrantOwner(user: string) returns (err: Option<Error>)
      modifies this
      ensures host == old(host).Then(Call.SqlGrantOwner(user)) && err == oracle.grantOwner(user)
    {
      host := host.Then(Call.SqlGrantOwner(user));
      err := oracle.grantOwner(user);
    }
  }
}
