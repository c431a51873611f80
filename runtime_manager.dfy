/** The serving runtime and the inference service: editing the runtime and
    deploy manifests, creating them, and waiting for the runtime. */
module RuntimeManager {

  import opened Base
  import opened PyStr
  import opened Docs
  import opened Platform
  import opened Kube
  import opened Readiness

  // ---------------------------------------------------------------------
  // update_runtime_yaml

  /** `spec.containers[0]` of the runtime manifest. */
  const ContainerPath: Path := [Key("spec"), Key("containers"), At(0)]
  const EnvPath: Path := ContainerPath + [Key("env")]
  const ProfileVar := "NIM_MODEL_PROFILE"

  /** Whether an entry of the `env` list is the profile variable; reading
      its `name` may raise. */
  function IsProfileVar(item: Value): Result<bool> {
    var name :- Child(item, Key("name"));
    Ok(name == Str(ProfileVar))
  }

  /** The `for ... break` over the `env` list: the position of the first
      entry named `NIM_MODEL_PROFILE`; an entry before it without a name
      (or that is not a mapping) raises. */
  function ProfileEnvIndex(items: seq<Value>): (r: Result<Option<nat>>)
    ensures r.Ok? && r.value.Some? ==>
      var k := r.value.value;
      && k < |items| && IsProfileVar(items[k]) == Ok(true)
      && forall j :: 0 <= j < k ==> IsProfileVar(items[j]) == Ok(false)
    ensures r == Ok(None) <==> forall j :: 0 <= j < |items| ==> IsProfileVar(items[j]) == Ok(false)
    ensures r.Raise? ==> exists k :: (0 <= k < |items| && IsProfileVar(items[k]) == Raise(r.exc)
      && forall j :: 0 <= j < k ==> IsProfileVar(items[j]) == Ok(false))
    decreases |items|
  {
    if items == [] then Ok(None)
    else
      match IsProfileVar(items[0])
      case Raise(e) => Raise(e)
      case Ok(true) => Ok(Some(0))
      case Ok(false) =>
        var rest := ProfileEnvIndex(items[1..]);
        assert forall j :: 1 <= j < |items| ==> items[1..][j - 1] == items[j];
        match rest
        case Raise(e) =>
          ghost var k :| 0 <= k < |items| - 1 && IsProfileVar(items[1..][k]) == Raise(e)
            && forall j :: 0 <= j < k ==> IsProfileVar(items[1..][j]) == Ok(false);
          assert IsProfileVar(items[k + 1]) == Raise(e);
          Raise(e)
        case Ok(None) => Ok(None)
        case Ok(Some(k)) => Ok(Some(k + 1))
  }

  /** The loop itself. */
  method FindProfileEnv(items: seq<Value>) returns (r: Result<Option<nat>>)
    ensures r == ProfileEnvIndex(items)
  {
    var i := 0;
    while i < |items|
      invariant 0 <= i <= |items|
      invariant forall j :: 0 <= j < i ==> IsProfileVar(items[j]) == Ok(false)
      decreases |items| - i
    {
      var name :- Child(items[i], Key("name"));
      if name == Str(ProfileVar) {
        return Ok(Some(i));
      }
      i := i + 1;
    }
    return Ok(None);
  }

  /** The edit of a loaded runtime manifest: the first container's image is
      set, then the profile variable (if any) of its `env` gets the model id.
      Iterating over an empty mapping or string does nothing; iterating over
      a non-empty one, or over a scalar, is a `TypeError`. */
  function EditRuntime(v: Value, image: string, id: string): Result<Value> {
    var v1 :- Assign(v, ContainerPath, "image", Str(image));
    var env :- Get(v1, EnvPath);
    match env
    case List(items) =>
      (match ProfileEnvIndex(items)
       case Raise(e) => Raise(e)
       case Ok(None) => Ok(v1)
       case Ok(Some(k)) => Assign(v1, EnvPath + [At(k)], "value", Str(id)))
    case Table(m) => if m == map[] then Ok(v1) else Raise(TypeError)
    case Str(s) => if s == [] then Ok(v1) else Raise(TypeError)
    case _ => Raise(TypeError)
  }

  /** The image assignment leaves every other path as it was: `env`,
      the container's other keys and everything outside the container. */
  lemma ImageStep(v: Value, image: string)
    requires Assign(v, ContainerPath, "image", Str(image)).Ok?
    ensures var v1 := Assign(v, ContainerPath, "image", Str(image)).value;
      && Get(v1, EnvPath) == Get(v, EnvPath)
      && (forall q :: Diverge(ContainerPath + [Key("image")], q) ==> Get(v1, q) == Get(v, q))
      && forall q :: Diverge(ContainerPath, q) ==> Get(v1, q) == Get(v, q)
  {
    DivergeAfter(ContainerPath, Key("image"), Key("env"), [], []);
    assert ContainerPath + [Key("image")] + [] == ContainerPath + [Key("image")];
    assert ContainerPath + [Key("env")] + [] == EnvPath;
    forall q | Diverge(ContainerPath, q) ensures Diverge(ContainerPath + [Key("image")], q) {
      DivergeBelow(ContainerPath, [Key("image")], q);
    }
  }

  /** The profile assignment changes only the `value` of entry `k`: the
      other entries, the entry's other keys, the image and everything
      outside the first container read as before. */
  lemma ProfileStep(v1: Value, k: nat, id: string)
    requires Assign(v1, EnvPath + [At(k)], "value", Str(id)).Ok?
    ensures var d := Assign(v1, EnvPath + [At(k)], "value", Str(id)).value;
      && Get(d, EnvPath + [At(k), Key("value")]) == Ok(Str(id))
      && Get(d, ContainerPath + [Key("image")]) == Get(v1, ContainerPath + [Key("image")])
      && (forall q :: Diverge(EnvPath + [At(k), Key("value")], q) ==> Get(d, q) == Get(v1, q))
      && forall q :: Diverge(ContainerPath, q) ==> Get(d, q) == Get(v1, q)
  {
    var target := EnvPath + [At(k)] + [Key("value")];
    assert target == ContainerPath + [Key("env")] + [At(k), Key("value")];
    assert target == EnvPath + [At(k), Key("value")];
    DivergeAfter(ContainerPath, Key("env"), Key("image"), [At(k), Key("value")], []);
    assert ContainerPath + [Key("image")] + [] == ContainerPath + [Key("image")];
    forall q | Diverge(ContainerPath, q) ensures Diverge(target, q) {
      DivergeBelow(ContainerPath, [Key("env"), At(k), Key("value")], q);
      assert ContainerPath + [Key("env"), At(k), Key("value")] == target;
    }
  }

  /** The position of the first profile variable in the manifest's `env`
      list, if it has one. */
  function ProfileSlot(v: Value): Option<nat> {
    match Get(v, EnvPath)
    case Ok(List(items)) => (match ProfileEnvIndex(items) case Ok(Some(k)) => Some(k) case _ => None)
    case _ => None
  }

  /** After a successful edit the image is set, the first profile variable
      (if any) holds the model id, and every other path reads as before:
      the other `env` entries, the entry's other keys and the container's
      other keys included. */
  lemma EditRuntimeSpec(v: Value, image: string, id: string)
    requires EditRuntime(v, image, id).Ok?
    ensures var d := EditRuntime(v, image, id).value;
      var slot := ProfileSlot(v);
      && Get(d, ContainerPath + [Key("image")]) == Ok(Str(image))
      && (slot.Some? ==> Get(d, EnvPath + [At(slot.value), Key("value")]) == Ok(Str(id)))
      && (forall q ::
            (Diverge(ContainerPath + [Key("image")], q) && (slot.None? || Diverge(EnvPath + [At(slot.value), Key("value")], q)))
            ==> Get(d, q) == Get(v, q))
      && forall q :: Diverge(ContainerPath, q) ==> Get(d, q) == Get(v, q)
  {
    var v1 := Assign(v, ContainerPath, "image", Str(image)).value;
    ImageStep(v, image);
    var env := Get(v1, EnvPath).value;
    if env.List? && ProfileEnvIndex(env.items).value.Some? {
      ProfileStep(v1, ProfileEnvIndex(env.items).value.value, id);
    }
  }

  /** The profile variable found in the original `env` list holds the model
      id afterwards. */
  lemma EditRuntimeProfile(v: Value, image: string, id: string, items: seq<Value>, k: nat)
    requires EditRuntime(v, image, id).Ok?
    requires Get(v, EnvPath) == Ok(List(items)) && ProfileEnvIndex(items) == Ok(Some(k))
    ensures Get(EditRuntime(v, image, id).value, EnvPath + [At(k), Key("value")]) == Ok(Str(id))
  {
    assert ProfileSlot(v) == Some(k);
    EditRuntimeSpec(v, image, id);
  }

  /** Without a profile variable in the list, only the image changes. */
  lemma EditRuntimeNoProfile(v: Value, image: string, id: string, items: seq<Value>)
    requires Get(v, ContainerPath).Ok? && Get(v, ContainerPath).value.Table?
    requires Get(v, EnvPath) == Ok(List(items)) && ProfileEnvIndex(items) == Ok(None)
    ensures EditRuntime(v, image, id) == Assign(v, ContainerPath, "image", Str(image))
  {
    ImageStep(v, image);
  }

  /** The whole step on what loading the file gave. */
  function RuntimeEdit(loaded: Result<Value>, image: string, id: string): Result<Value> {
    var v :- loaded;
    EditRuntime(v, image, id)
  }

  /** `update_runtime_yaml`: load, edit, write back; a write failure raises. */
  method UpdateRuntimeYaml(h: Host, path: string, image: string, id: string) returns (r: Result<()>)
    modifies h`files
    ensures match RuntimeEdit(old(h.Load(path)), image, id)
      case Raise(e) => r == Raise(e) && h.files == old(h.files)
      case Ok(d) =>
        && h.files == (if h.canWrite(path) then old(h.files)[path := Doc(d)] else old(h.files))
        && (r.Ok? <==> h.canWrite(path)) && (r.Raise? ==> r.exc == OSError(path))
  {
    var v :- h.Load(path);
    var v1 :- Assign(v, ContainerPath, "image", Str(image));
    var env :- Get(v1, EnvPath);
    var d := v1;
    match env {
      case List(items) =>
        var k :- FindProfileEnv(items);
        if k.Some? {
          d :- Assign(v1, EnvPath + [At(k.value)], "value", Str(id));
        }
      case Table(m) =>
        if m != map[] {
          return Raise(TypeError);
        }
      case Str(s) =>
        if s != [] {
          return Raise(TypeError);
        }
      case _ =>
        return Raise(TypeError);
    }
    r := h.Dump(path, d);
  }

  // ---------------------------------------------------------------------
  // apply_runtime_yaml

  /** `apply_runtime_yaml`: the create runs without `check`, so its
      `CalledProcessError` handler, and with it the apply fallback, is never
      reached: one command, and only a failed start raises. */
  method ApplyRuntimeYaml(h: Host, path: string, ns: string) returns (r: Result<()>)
    modifies h`calls
    ensures h.calls == old(h.calls) + [CreateCmd(path, ns)]
    ensures r.Raise? <==> h.respond(|old(h.calls)|).NotLaunched?
    ensures r.Raise? ==> r.exc == OSError("kubectl")
  {
    var p := h.Run(CreateCmd(path, ns));
    var _ :- Launched(p);
    r := Ok(());
  }

  // ---------------------------------------------------------------------
  // wait_for_clusterservingruntime

  const DefaultRuntimeTimeout: nat := 180
  const RuntimeTimeoutMessage := "ClusterServingRuntime not found in time."

  function RuntimeListCmd(ns: string): Command {
    Kubectl(["get", "clusterservingruntime", "-n", ns])
  }

  function RuntimeWaitResult(w: Outcome): (r: Result<()>)
    ensures r.Ok? <==> w.status.Ready?
    ensures w.status.Failed? ==> r == Raise(w.status.e)
    ensures w.status.TimedOut? ==> r == Raise(TimeoutError(RuntimeTimeoutMessage))
  {
    match w.status
    case Ready(_) => Ok(())
    case Failed(e) => Raise(e)
    case TimedOut => Raise(TimeoutError(RuntimeTimeoutMessage))
  }

  /** `wait_for_clusterservingruntime`: poll every five seconds until the
      listing mentions `nim` or `llama`; failed listings are ignored; after
      `timeout` seconds `TimeoutError`. */
  method WaitForClusterServingRuntime(h: Host, ns: string, timeout: nat := DefaultRuntimeTimeout) returns (r: Result<()>)
    modifies h`calls, h`clock
    ensures var w := Wait(RuntimeListed, h.respond, |old(h.calls)|, old(h.clock), old(h.clock) + timeout);
      && w.next >= |old(h.calls)|
      && r == RuntimeWaitResult(w)
      && h.calls == old(h.calls) + Repeat(RuntimeListCmd(ns), w.next - |old(h.calls)|)
      && h.clock == w.clock
  {
    var s := Poll(h, RuntimeListed, RuntimeListCmd(ns), timeout);
    match s
    case Ready(_) => return Ok(());
    case Failed(e) => return Raise(e);
    case TimedOut => return Raise(TimeoutError(RuntimeTimeoutMessage));
  }

  // ---------------------------------------------------------------------
  // update_runtime_in_deploy_yaml

  const RuntimeRefPath: Path := [Key("spec"), Key("predictor"), Key("model")]

  /** Set `spec.predictor.model.runtime` in the loaded deploy manifest. */
  function DeployEdit(loaded: Result<Value>, runtime: string): (r: Result<Value>)
    ensures r.Ok? ==> Get(r.value, RuntimeRefPath + [Key("runtime")]) == Ok(Str(runtime))
    ensures r.Ok? ==> loaded.Ok? && forall q :: Diverge(RuntimeRefPath + [Key("runtime")], q) ==> Get(r.value, q) == Get(loaded.value, q)
    ensures loaded.Ok? ==> (r.Ok? <==> Get(loaded.value, RuntimeRefPath).Ok? && Get(loaded.value, RuntimeRefPath).value.Table?)
    ensures loaded.Raise? ==> r == Raise(loaded.exc)
  {
    var v :- loaded;
    Assign(v, RuntimeRefPath, "runtime", Str(runtime))
  }

  /** `update_runtime_in_deploy_yaml`. */
  method UpdateRuntimeInDeployYaml(h: Host, path: string, runtime: string) returns (r: Result<()>)
    modifies h`files
    ensures match DeployEdit(old(h.Load(path)), runtime)
      case Raise(e) => r == Raise(e) && h.files == old(h.files)
      case Ok(d) =>
        && h.files == (if h.canWrite(path) then old(h.files)[path := Doc(d)] else old(h.files))
        && (r.Ok? <==> h.canWrite(path)) && (r.Raise? ==> r.exc == OSError(path))
  {
    var v :- h.Load(path);
    var d :- Assign(v, RuntimeRefPath, "runtime", Str(runtime));
    r := h.Dump(path, d);
  }

  // ---------------------------------------------------------------------
  // create_or_apply_deploy_yaml

  /** `create_or_apply_deploy_yaml`: nothing happens without a path naming a
      file; otherwise create-or-apply, then a pod listing whose failure is
      only printed. */
  method CreateOrApplyDeployYaml(h: Host, path: Option<string>, ns: string) returns (r: Result<()>)
    modifies h`calls
    ensures !Given(path) || !h.IsFile(path.value) ==> r == Ok(()) && h.calls == old(h.calls)
    ensures Given(path) && h.IsFile(path.value) ==>
      var n := |old(h.calls)|;
      var create, apply := h.respond(n), h.respond(n + 1);
      && h.calls == old(h.calls) + DeployCalls(create, apply, path.value, ns, PodsCmd(ns))
      && r == DeployResult(create, apply, h.respond(n + |CreateOrApplyCalls(create, path.value, ns)|))
  {
    if !Given(path) || !h.IsFile(path.value) {
      return Ok(());
    }
    r := CreateApplyAndList(h, path.value, ns, PodsCmd(ns));
  }
}
