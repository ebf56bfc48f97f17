/** The client that applies the derived objects and writes the provisioning state
    (controllers/internal/kubeobjects/kubeobjects.go). */
module KubeObjects {
  import opened Base
  import opened Api
  import opened KubeTypes
  import opened External

  /** AzAppKubeObjects: the package-level list the built objects are appended to; never assigned. */
  const AzAppKubeObjects: seq<KubeObject> := []

  /** The server-side-apply patches issued for `objs`, in order. */
  function Patches(objs: seq<KubeObject>, options: seq<PatchOption>): (r: seq<Call>)
    ensures |r| == |objs|
  {
    if objs == [] then [] else [KubePatch(objs[0], options)] + Patches(objs[1..], options)
  }

  /** The position of the first object whose patch fails, or |objs| when none does. */
  function FirstFailing(o: Oracle, objs: seq<KubeObject>): (k: nat)
    ensures k <= |objs|
    ensures forall i :: 0 <= i < k ==> o.patch(objs[i]).None?
    ensures k < |objs| ==> o.patch(objs[k]).Some?
  {
    if objs == [] then 0
    else if o.patch(objs[0]).Some? then 0
    else 1 + FirstFailing(o, objs[1..])
  }

  /** ApplyAll: patch each object in turn, returning the first error. */
  function ApplyAllF(o: Oracle, h: Host, objs: seq<KubeObject>, options: seq<PatchOption>): (r: (Option<Error>, Host))
    ensures r.1.files == h.files
    ensures h.calls <= r.1.calls
    decreases |objs|
  {
    if objs == [] then (None, h)
    else
      var h1 := h.Then(KubePatch(objs[0], options));
      if o.patch(objs[0]).Some? then (o.patch(objs[0]), h1)
      else ApplyAllF(o, h1, objs[1..], options)
  }

  /** How many objects ApplyAll patches: up to and including the first failing one. */
  function Attempted(o: Oracle, objs: seq<KubeObject>): (n: nat)
    ensures n <= |objs|
  {
    if FirstFailing(o, objs) < |objs| then FirstFailing(o, objs) + 1 else |objs|
  }

  /** ApplyAll returns the error of the first failing patch, and nil when no patch fails. */
  lemma {:induction false} ApplyAllReturnsFirstError(o: Oracle, h: Host, objs: seq<KubeObject>, options: seq<PatchOption>)
    ensures var k := FirstFailing(o, objs);
      ApplyAllF(o, h, objs, options).0 == (if k < |objs| then o.patch(objs[k]) else None)
    decreases |objs|
  {
    if objs != [] && o.patch(objs[0]).None? {
      ApplyAllReturnsFirstError(o, h.Then(KubePatch(objs[0], options)), objs[1..], options);
    }
  }

  /** The patches of a non-empty prefix: the first object's, then those of the rest of the prefix. */
  lemma PatchesOfPrefix(objs: seq<KubeObject>, n: nat, options: seq<PatchOption>)
    requires 0 < n <= |objs|
    ensures Patches(objs[..n], options) == [KubePatch(objs[0], options)] + Patches(objs[1..][..n - 1], options)
  {
    assert objs[..n][1..] == objs[1..][..n - 1];
  }

  /** ApplyAll patches strictly in list order, up to and including the first failing object; no
      later object is patched. */
  lemma {:induction false} ApplyAllPatchesInOrder(o: Oracle, h: Host, objs: seq<KubeObject>, options: seq<PatchOption>)
    ensures ApplyAllF(o, h, objs, options).1.calls == h.calls + Patches(objs[..Attempted(o, objs)], options)
    decreases |objs|
  {
    if objs == [] {
      assert h.calls + Patches(objs[..0], options) == h.calls;
    } else if o.patch(objs[0]).Some? {
      PatchesOfPrefix(objs, 1, options);
    } else {
      ApplyAllPatchesInOrder(o, h.Then(KubePatch(objs[0], options)), objs[1..], options);
      var n' := Attempted(o, objs[1..]);
      assert Attempted(o, objs) == n' + 1;
      PatchesOfPrefix(objs, n' + 1, options);
    }
  }

  /** ApplyAll succeeds exactly when every patch succeeds; an empty list patches nothing. */
  lemma ApplyAllSucceedsIffAllPatch(o: Oracle, h: Host, objs: seq<KubeObject>, options: seq<PatchOption>)
    ensures ApplyAllF(o, h, objs, options).0.None? <==> forall i :: 0 <= i < |objs| ==> o.patch(objs[i]).None?
    ensures ApplyAllF(o, h, objs, options).0.None? ==> ApplyAllF(o, h, objs, options).1.calls == h.calls + Patches(objs, options)
  {
    ApplyAllReturnsFirstError(o, h, objs, options);
    ApplyAllPatchesInOrder(o, h, objs, options);
    assert objs[..|objs|] == objs;
  }

  /** SetProvisionState: the app with ProvisioningState set, whether or not the status write then
      succeeds, and the write's error unchanged. */
  function SetProvisionStateF(o: Oracle, h: Host, provState: string, app: AzureApp): (r: (AzureApp, Option<Error>, Host))
    ensures r.0.status.provisioningState == provState
    ensures r.0.status.deployment == app.status.deployment && r.0.meta == app.meta && r.0.spec == app.spec
    ensures r.1 == o.statusUpdate(r.0)
    ensures r.2 == h.Then(KubeStatusUpdate(r.0))
  {
    var app' := app.(status := app.status.(provisioningState := provState));
    (app', o.statusUpdate(app'), h.Then(KubeStatusUpdate(app')))
  }

  /** KubeClient: the Kubernetes client together with the context and the apply options every
      patch is issued with. */
  class KubeClient {
    const client: World
    const context: Context
    const applyOptions: seq<PatchOption>

    /** NewKubeClient: stores its arguments unchanged. */
    constructor NewKubeClient(c: World, ctx: Context, applyOptions: seq<PatchOption>)
      ensures this.client == c && this.context == ctx && this.applyOptions == applyOptions
    {
      this.client := c;
      this.context := ctx;
      this.applyOptions := applyOptions;
    }

    method ApplyAll(kubeobjects: seq<KubeObject>) returns (err: Option<Error>)
      modifies client
      ensures (err, client.host) == ApplyAllF(client.oracle, old(client.host), kubeobjects, applyOptions)
    {
      var i := 0;
      while i < |kubeobjects|
        invariant 0 <= i <= |kubeobjects|
        invariant ApplyAllF(client.oracle, old(client.host), kubeobjects, applyOptions)
                  == ApplyAllF(client.oracle, client.host, kubeobjects[i..], applyOptions)
      {
        assert kubeobjects[i..][1..] == kubeobjects[i + 1..];
        err := client.Patch(kubeobjects[i], applyOptions);
        if err.Some? {
          return;
        }
        i := i + 1;
      }
      return None;
    }

    method SetProvisionState(provState: string, azapp: AzureApp) returns (azapp': AzureApp, err: Option<Error>)
      modifies client
      ensures (azapp', err, client.host) == SetProvisionStateF(client.oracle, old(client.host), provState, azapp)
    {
      azapp' := azapp.(status := azapp.status.(provisioningState := provState));
      err := client.StatusUpdate(azapp');
    }
  }
}
