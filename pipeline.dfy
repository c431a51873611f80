/** The scheduler's driver: API keys, namespace and secrets, then the fixed
    sequence of stages from the claim manifest to the artifact copy. */
module Pipeline {

  import opened Base
  import opened PyStr
  import opened Seqs
  import opened Docs
  import opened Platform
  import opened Kube
  import Base64
  import ConfigLoader
  import ApiKeys
  import PodManager
  import PvcManager
  import RuntimeManager
  import TomlUpdater
  import Utils

  const MissingNgc := " Missing 'ngc_api_key' in [api_keys]"
  const MissingHf := " Missing 'hugging_face_token' in [api_keys]"
  const NoGenaiPod := "No pod matching 'genai-perf' found."

  /** The stages of a run, in the order they are entered. */
  datatype Stage =
    | Credentials | NamespaceSetup | Secrets | SecretTemplate | NamespaceLabel
    | ClaimManifest | ProfilePod | ProfileLogs | ModelDownload | ServingRuntime | Deployment
    | PodLookup | ClusterIp | WorkdirClaim | GenaiPod | PodExec | Benchmark | Artifacts

  const PreludeOrder: seq<Stage> := [Credentials, NamespaceSetup, Secrets, SecretTemplate, NamespaceLabel]
  const ProvisionOrder: seq<Stage> := [ClaimManifest, ProfilePod, ProfileLogs, ModelDownload, ServingRuntime, Deployment]
  const MeasureOrder: seq<Stage> := [PodLookup, ClusterIp, WorkdirClaim, GenaiPod, PodExec, Benchmark, Artifacts]
  const StageOrder: seq<Stage> := PreludeOrder + ProvisionOrder + MeasureOrder

  /** The stages entered are the first ones of `order`. */
  predicate Reached(stages: seq<Stage>, order: seq<Stage>) {
    |stages| <= |order| && stages == order[..|stages|]
  }

  // ---------------------------------------------------------------------
  // Namespace and secrets

  function GetNsCmd(ns: string): Command {
    Kubectl(["get", "ns", ns])
  }

  function CreateNsCmd(ns: string): Command {
    Kubectl(["create", "ns", ns])
  }

  /** The namespace is created only when probing for it fails. */
  method EnsureNamespace(h: Host, ns: string) returns (r: Result<()>)
    modifies h`calls
    ensures old(h.calls) <= h.calls
    ensures var n := |old(h.calls)|;
      match Launched(h.respond(n))
      case Raise(e) => r == Raise(e) && h.calls == old(h.calls) + [GetNsCmd(ns)]
      case Ok(p) =>
        if p.code == 0 then r == Ok(()) && h.calls == old(h.calls) + [GetNsCmd(ns)]
        else r == Ran(Checked(h.respond(n + 1))) && h.calls == old(h.calls) + [GetNsCmd(ns), CreateNsCmd(ns)]
  {
    var probe := h.Run(GetNsCmd(ns));
    var p :- Launched(probe);
    if p.code != 0 {
      var created := h.Run(CreateNsCmd(ns));
      r := Ran(Checked(created));
    } else {
      r := Ok(());
    }
  }

  function GetSecretCmd(name: string, ns: string): Command {
    Kubectl(["get", "secret", name, "-n", ns])
  }

  function DeleteSecretCmd(name: string, ns: string): Command {
    Kubectl(["delete", "secret", name, "-n", ns])
  }

  /** The image-pull secret, holding the NGC key as the registry password. */
  function RegistrySecretCmd(ns: string, ngc: string): Command {
    Kubectl(["create", "secret", "docker-registry", "ngc-secret", "-n", ns,
             "--docker-server=nvcr.io", "--docker-username", "oauthtoken", "--docker-password", ngc])
  }

  /** The generic secret holding both tokens. */
  function NimSecretCmd(ns: string, hf: string, ngc: string): Command {
    Kubectl(["create", "secret", "generic", "nvidia-nim-secrets", "-n", ns,
             "--from-literal=token=" + hf, "--from-literal=api-key=" + ngc])
  }

  /** Replace a secret: it is deleted when the probe finds it, then always
      created; the delete and the create run with `check`. */
  method ReplaceSecret(h: Host, name: string, ns: string, create: Command) returns (r: Result<()>)
    modifies h`calls
    ensures old(h.calls) <= h.calls
    ensures var n := |old(h.calls)|;
      var probe := GetSecretCmd(name, ns);
      match Launched(h.respond(n))
      case Raise(e) => r == Raise(e) && h.calls == old(h.calls) + [probe]
      case Ok(p) =>
        if p.code != 0 then r == Ran(Checked(h.respond(n + 1))) && h.calls == old(h.calls) + [probe, create]
        else
          match Checked(h.respond(n + 1))
          case Raise(e) => r == Raise(e) && h.calls == old(h.calls) + [probe, DeleteSecretCmd(name, ns)]
          case Ok(_) => r == Ran(Checked(h.respond(n + 2))) && h.calls == old(h.calls) + [probe, DeleteSecretCmd(name, ns), create]
  {
    var check := h.Run(GetSecretCmd(name, ns));
    var p :- Launched(check);
    if p.code == 0 {
      var deleted := h.Run(DeleteSecretCmd(name, ns));
      var _ :- Checked(deleted);
    }
    var created := h.Run(create);
    r := Ran(Checked(created));
  }

  // ---------------------------------------------------------------------
  // The secret template

  const HfPlaceholder := "${HF_TOKEN}"
  const NgcPlaceholder := "${NGC_API_KEY}"
  const TemplatePath: Path := [Key("paths"), Key("nim_secrets_yaml_path")]

  /** The template with every `${HF_TOKEN}`, then every `${NGC_API_KEY}`,
      replaced by the token's base64 encoding. */
  function FilledTemplate(t: string, hf: string, ngc: string): string {
    Replace(Replace(t, HfPlaceholder, Base64.EncodeToken(hf)), NgcPlaceholder, Base64.EncodeToken(ngc))
  }

  /** Every occurrence of each placeholder is replaced and the text around
      them is kept; the substituted values hold no placeholder of their own;
      a template without placeholders is applied as it is. */
  lemma FilledTemplateSpec(t: string, hf: string, ngc: string)
    ensures FilledTemplate(t, hf, ngc)
         == Join(Split(Join(Split(t, HfPlaceholder), Base64.EncodeToken(hf)), NgcPlaceholder), Base64.EncodeToken(ngc))
    ensures forall name :: !Contains(Base64.EncodeToken(hf), "${" + name + "}") && !Contains(Base64.EncodeToken(ngc), "${" + name + "}")
    ensures !Contains(t, HfPlaceholder) && !Contains(t, NgcPlaceholder) ==> FilledTemplate(t, hf, ngc) == t
  {
    var once := Replace(t, HfPlaceholder, Base64.EncodeToken(hf));
    ReplaceIsJoinOfSplit(t, HfPlaceholder, Base64.EncodeToken(hf));
    ReplaceIsJoinOfSplit(once, NgcPlaceholder, Base64.EncodeToken(ngc));
    Base64.NoPlaceholderChars(hf);
    Base64.NoPlaceholderChars(ngc);
    if !Contains(t, HfPlaceholder) && !Contains(t, NgcPlaceholder) {
      ReplaceAbsent(t, HfPlaceholder, Base64.EncodeToken(hf));
      ReplaceAbsent(t, NgcPlaceholder, Base64.EncodeToken(ngc));
    }
  }

  /** The manifest fed to `kubectl apply`: the template named by
      `paths.nim_secrets_yaml_path`, which must exist, filled in. */
  function SecretManifest(h: Host, doc: Value, hf: string, ngc: string): (r: Result<string>)
    reads h`files, h`dirs
    ensures r.Ok? <==> GetStr(doc, TemplatePath).Ok? && h.ReadText(GetStr(doc, TemplatePath).value).Ok?
    ensures r.Ok? ==> r.value == FilledTemplate(h.ReadText(GetStr(doc, TemplatePath).value).value, hf, ngc)
    ensures GetStr(doc, TemplatePath).Ok? && !h.Exists(GetStr(doc, TemplatePath).value) ==>
      r == Raise(FileNotFoundError(GetStr(doc, TemplatePath).value))
  {
    var path :- GetStr(doc, TemplatePath);
    if !h.Exists(path) then Raise(FileNotFoundError(path))
    else
      var t :- h.ReadText(path);
      Ok(FilledTemplate(t, hf, ngc))
  }

  function ApplyStdinCmd(ns: string, manifest: string): Command {
    Cmd(["kubectl", "apply", "-n", ns, "-f", "-"], manifest)
  }

  /** Apply the filled-in secret template through stdin, with `check`. */
  method ApplySecretTemplate(h: Host, doc: Value, ns: string, hf: string, ngc: string) returns (r: Result<()>)
    modifies h`calls
    ensures old(h.calls) <= h.calls
    ensures match SecretManifest(h, doc, hf, ngc)
      case Raise(e) => r == Raise(e) && h.calls == old(h.calls)
      case Ok(m) => r == Ran(Checked(h.respond(|old(h.calls)|))) && h.calls == old(h.calls) + [ApplyStdinCmd(ns, m)]
  {
    var manifest :- SecretManifest(h, doc, hf, ngc);
    var p := h.Run(ApplyStdinCmd(ns, manifest));
    r := Ran(Checked(p));
  }

  /** The label listing (without `check`), then the label (with `check`). */
  function LabelSteps(ns: string): seq<Kube.Step> {
    [Step(Kubectl(["get", "ns", ns, "--show-labels"]), false),
     Step(Kubectl(["label", "ns", ns, "hpe-ezua/ezmodels=true", "--overwrite"]), true)]
  }

  method LabelNamespace(h: Host, ns: string) returns (r: Result<()>)
    modifies h`calls
    ensures old(h.calls) <= h.calls
    ensures var run := ScriptRun(h.respond, |old(h.calls)|, LabelSteps(ns));
      h.calls == old(h.calls) + Commands(LabelSteps(ns)[..run.0]) && r == run.1
  {
    r := RunScript(h, LabelSteps(ns));
  }

  // ---------------------------------------------------------------------
  // `Path(p).stem`

  /** The position of the last `c` in `s`. */
  function LastIndexOf(s: string, c: char): (r: Option<nat>)
    ensures r.None? <==> c !in s
    ensures r.Some? ==> r.value < |s| && s[r.value] == c && c !in s[r.value + 1..]
    decreases |s|
  {
    if s == [] then None
    else if s[|s| - 1] == c then Some(|s| - 1)
    else
      var r := LastIndexOf(s[..|s| - 1], c);
      assert r.Some? ==> s[r.value + 1..] == s[..|s| - 1][r.value + 1..] + [s[|s| - 1]];
      assert s == s[..|s| - 1] + [s[|s| - 1]];
      r
  }

  /** The final component of a slash-separated path. */
  function BaseName(p: string): (b: string)
    ensures '/' !in b
    ensures |b| <= |p| && b == p[|p| - |b|..]
    ensures |b| < |p| ==> p[|p| - |b| - 1] == '/'
  {
    match LastIndexOf(p, '/')
    case None => p
    case Some(i) => p[i + 1..]
  }

  /** `Path(p).stem`: the final component without its last suffix. The
      suffix starts at the last dot, which must be neither the first nor the
      last character; otherwise (the component ends in a dot, or has no dot
      after its first character) the whole component is the stem. */
  function Stem(p: string): (s: string)
    ensures var b := BaseName(p);
      && |s| <= |b| && s == b[..|s|] && '/' !in s
      && (|s| < |b| ==> 0 < |s| < |b| - 1 && b[|s|] == '.' && '.' !in b[|s| + 1..])
      && (|s| == |b| ==> (b != [] && b[|b| - 1] == '.') || forall i :: 0 < i < |b| ==> b[i] != '.')
  {
    var b := BaseName(p);
    match LastIndexOf(b, '.')
    case None => b
    case Some(i) =>
      if 0 < i < |b| - 1 then b[..i]
      else if i == 0 then
        FirstDotOnly(b);
        b
      else b
  }

  /** Without a dot after the first character, no later position holds one. */
  lemma FirstDotOnly(b: string)
    requires b != [] && '.' !in b[1..]
    ensures forall j :: 0 < j < |b| ==> b[j] != '.'
  {
    forall j | 0 < j < |b| ensures b[j] != '.' {
      assert b[j] == b[1..][j - 1];
    }
  }

  // ---------------------------------------------------------------------
  // Flow of values between stages

  /** The model id recorded from the profile pod's logs is what the
      download and runtime stages read next from the shared configuration;
      the manifest path, the image, the runtime manifest and the namespace
      read as before. */
  lemma SelectedIdReachesLaterStages(doc: Value, id: string)
    requires Assign(doc, [Key("profile")], PodManager.SelectedIdKey, Str(id)).Ok?
    ensures var d := Assign(doc, [Key("profile")], PodManager.SelectedIdKey, Str(id)).value;
      && GetStr(d, ConfigLoader.SelectedModelIdPath) == Ok(id)
      && Get(d, ConfigLoader.ImagePath) == Get(doc, ConfigLoader.ImagePath)
      && Get(d, ConfigLoader.DownloadYamlPath) == Get(doc, ConfigLoader.DownloadYamlPath)
      && Get(d, [Key("paths"), Key("runtime")]) == Get(doc, [Key("paths"), Key("runtime")])
      && Get(d, [Key("constants"), Key("namespace")]) == Get(doc, [Key("constants"), Key("namespace")])
    ensures var d := Assign(doc, [Key("profile")], PodManager.SelectedIdKey, Str(id)).value;
      && (ConfigLoader.LoadTomlConfig(d).Ok? <==>
            GetStr(doc, ConfigLoader.DownloadYamlPath).Ok? && GetStr(doc, ConfigLoader.ImagePath).Ok?)
      && (ConfigLoader.LoadTomlConfig(d).Ok? ==>
            ConfigLoader.LoadTomlConfig(d).value
              == (GetStr(doc, ConfigLoader.DownloadYamlPath).value, GetStr(doc, ConfigLoader.ImagePath).value, id))
  {
    var target := [Key("profile")] + [Key(PodManager.SelectedIdKey)];
    assert target == ConfigLoader.SelectedModelIdPath;
    DivergeAfter([Key("profile")], Key(PodManager.SelectedIdKey), Key("image"), [], []);
    assert [Key("profile")] + [Key("image")] + [] == ConfigLoader.ImagePath;
    assert target + [] == target;
    DivergeAfter([], Key("profile"), Key("download"), [Key(PodManager.SelectedIdKey)], [Key("download_yaml")]);
    DivergeAfter([], Key("profile"), Key("paths"), [Key(PodManager.SelectedIdKey)], [Key("runtime")]);
    DivergeAfter([], Key("profile"), Key("constants"), [Key(PodManager.SelectedIdKey)], [Key("namespace")]);
  }

  /** The cluster IP written to the file is what the benchmark stage reads
      back from it. */
  lemma RecordedIpReachesBench(listing: Proc, loaded: Result<Value>)
    requires TomlUpdater.ClusterIpUpdate(listing, loaded).Some?
    ensures TomlUpdater.ServiceIp(listing.out).Ok? && TomlUpdater.ServiceIp(listing.out).value.Some?
    ensures Lookup(TomlUpdater.ClusterIpUpdate(listing, loaded).value, "values", "cluster_ip")
         == Some(TomlUpdater.ServiceIp(listing.out).value.value)
  {
    TomlUpdater.ClusterIpUpdateRecords(listing, loaded);
  }

  // ---------------------------------------------------------------------
  // The stages

  /** Keys, namespace, the two secrets, the secret template and the label.
      Missing keys are reported after they are exported and before any
      command runs. */
  method Prelude(h: Host, cfg: ConfigLoader.RunConfig, ns: string) returns (r: Result<()>, stages: seq<Stage>)
    modifies h`calls, h`env
    ensures Reached(stages, PreludeOrder) && stages != []
    ensures old(h.calls) <= h.calls
    ensures r.Ok? ==> stages == PreludeOrder
    ensures var keys := Section(cfg.doc, "api_keys");
      h.env == ApiKeys.ExportedEnv(old(h.env), Field(keys, "ngc_api_key"), Field(keys, "ngc_token"), Field(keys, "hugging_face_token"))
    ensures var keys := Section(cfg.doc, "api_keys");
      && (!Given(Field(keys, "ngc_api_key")) ==>
            r == Raise(ValueError(MissingNgc)) && stages == [Credentials] && h.calls == old(h.calls))
      && (Given(Field(keys, "ngc_api_key")) && !Given(Field(keys, "hugging_face_token")) ==>
            r == Raise(ValueError(MissingHf)) && stages == [Credentials] && h.calls == old(h.calls))
      && (Given(Field(keys, "ngc_api_key")) && Given(Field(keys, "hugging_face_token")) ==>
            |h.calls| > |old(h.calls)| && h.calls[|old(h.calls)|] == GetNsCmd(ns))
  {
    stages := PreludeOrder[..1];
    var ngc, _, hf := ApiKeys.ExportEnvVars(h, Section(cfg.doc, "api_keys"));
    if !Given(ngc) {
      r := Raise(ValueError(MissingNgc));
      return;
    }
    if !Given(hf) {
      r := Raise(ValueError(MissingHf));
      return;
    }
    r, stages := ClusterSetup(h, cfg.doc, ns, hf.value, ngc.value);
  }

  /** Namespace, secrets, secret template and label, in that order; the
      first command is the namespace probe. */
  method ClusterSetup(h: Host, doc: Value, ns: string, hf: string, ngc: string) returns (r: Result<()>, stages: seq<Stage>)
    modifies h`calls
    ensures 2 <= |stages| <= |PreludeOrder| && stages == PreludeOrder[..|stages|]
    ensures r.Ok? ==> stages == PreludeOrder
    ensures old(h.calls) <= h.calls && |h.calls| > |old(h.calls)| && h.calls[|old(h.calls)|] == GetNsCmd(ns)
  {
    stages := PreludeOrder[..2];
    r := SetUpNamespace(h, ns);
    if r.Raise? {
      return;
    }
    stages := PreludeOrder[..3];
    r := CreateSecrets(h, ns, hf, ngc);
    if r.Raise? {
      return;
    }
    stages := PreludeOrder[..4];
    r := ApplyTemplate(h, doc, ns, hf, ngc);
    if r.Raise? {
      return;
    }
    stages := PreludeOrder[..5];
    r := Label(h, ns);
  }

  /** The namespace stage: its first command is the probe. */
  method SetUpNamespace(h: Host, ns: string) returns (r: Result<()>)
    modifies h`calls
    ensures old(h.calls) <= h.calls && |h.calls| > |old(h.calls)| && h.calls[|old(h.calls)|] == GetNsCmd(ns)
  {
    r := EnsureNamespace(h, ns);
  }

  /** The secrets stage: the registry secret, then the NIM secret. */
  method CreateSecrets(h: Host, ns: string, hf: string, ngc: string) returns (r: Result<()>)
    modifies h`calls
    ensures old(h.calls) <= h.calls
  {
    r := ReplaceSecret(h, "ngc-secret", ns, RegistrySecretCmd(ns, ngc));
    if r.Raise? {
      return;
    }
    r := ReplaceSecret(h, "nvidia-nim-secrets", ns, NimSecretCmd(ns, hf, ngc));
  }

  method ApplyTemplate(h: Host, doc: Value, ns: string, hf: string, ngc: string) returns (r: Result<()>)
    modifies h`calls
    ensures old(h.calls) <= h.calls
  {
    r := ApplySecretTemplate(h, doc, ns, hf, ngc);
  }

  method Label(h: Host, ns: string) returns (r: Result<()>)
    modifies h`calls
    ensures old(h.calls) <= h.calls
  {
    r := LabelNamespace(h, ns);
  }

  /** The claim manifest stage: `pvc_details` read as a table, with a
      missing or non-table section read as empty. */
  method EditClaim(h: Host, cfg: ConfigLoader.RunConfig, ns: string) returns (r: Result<()>)
    modifies h`calls, h`files
    ensures old(h.calls) <= h.calls
  {
    r := PvcManager.UpdatePvcYaml(h, Section(cfg.doc, "pvc_details"), ns);
  }

  /** What the profile pod stage checks before it creates the pod, in
      order: `load_profile_config()`, then `load_profile_list_config()`,
      which yields the manifest path. */
  function ProfilePodManifest(doc: Value, h: Host): Result<string>
    reads h`files, h`dirs
  {
    var _ :- ConfigLoader.LoadProfileConfig(doc);
    ConfigLoader.LoadProfileListConfig(doc, h)
  }

  /** The profile pod stage: both profile settings and the profile-list
      manifest are checked before the pod is created. */
  method StartProfilePod(h: Host, cfg: ConfigLoader.RunConfig, ns: string) returns (r: Result<()>)
    modifies h`calls
    ensures old(h.calls) <= h.calls
    ensures ProfilePodManifest(cfg.doc, h).Raise? ==>
      r == Raise(ProfilePodManifest(cfg.doc, h).exc) && h.calls == old(h.calls)
    ensures ProfilePodManifest(cfg.doc, h).Ok? ==>
      h.calls == old(h.calls) + [Kube.CreateCmd(ProfilePodManifest(cfg.doc, h).value, ns)]
  {
    var yamlPath := ProfilePodManifest(cfg.doc, h);
    if yamlPath.Raise? {
      return Raise(yamlPath.exc);
    }
    r := PodManager.CreatePod(h, yamlPath.value, ns);
  }

  /** The log stage, which raises nothing. */
  method ReadProfileLogs(h: Host, cfg: ConfigLoader.RunConfig, ns: string)
    modifies h`calls, h`files, cfg`doc
    ensures old(h.calls) <= h.calls
  {
    PodManager.FetchProfilePodLogsAndUpdateToml(h, cfg, ns);
  }

  /** The download stage. */
  method DownloadModel(h: Host, cfg: ConfigLoader.RunConfig, ns: string) returns (r: Result<()>)
    modifies h`calls, h`files
    ensures old(h.calls) <= h.calls
  {
    r := Utils.RunDownloadFlow(h, cfg, ns);
  }

  /** The runtime stage: the manifest path, image and model id come from
      the shared configuration as it is now. */
  method ServeRuntime(h: Host, cfg: ConfigLoader.RunConfig, ns: string) returns (r: Result<()>)
    modifies h`calls, h`files, h`clock
    ensures old(h.calls) <= h.calls
    ensures GetStr(cfg.doc, [Key("paths"), Key("runtime")]).Raise? ==> r.Raise? && h.calls == old(h.calls)
  {
    var runtime :- GetStr(cfg.doc, [Key("paths"), Key("runtime")]);
    var image :- GetStr(cfg.doc, ConfigLoader.ImagePath);
    var id :- GetStr(cfg.doc, ConfigLoader.SelectedModelIdPath);
    r := RuntimeManager.UpdateRuntimeYaml(h, runtime, image, id);
    if r.Raise? {
      return;
    }
    r := RuntimeManager.ApplyRuntimeYaml(h, runtime, ns);
    if r.Raise? {
      return;
    }
    r := RuntimeManager.WaitForClusterServingRuntime(h, ns);
  }

  /** The deploy stage: the runtime name is the stem of the runtime
      manifest's path; a missing deploy path fails in `open`. */
  method Deploy(h: Host, cfg: ConfigLoader.RunConfig, ns: string) returns (r: Result<()>)
    modifies h`calls, h`files
    ensures old(h.calls) <= h.calls
    ensures ConfigLoader.ReadPathsFromToml(cfg.doc).Raise? ==> r.Raise? && h.calls == old(h.calls) && h.files == old(h.files)
  {
    var paths :- ConfigLoader.ReadPathsFromToml(cfg.doc);
    var runtime :- GetStr(cfg.doc, [Key("paths"), Key("runtime")]);
    if paths.1.None? {
      return Raise(TypeError);
    }
    r := RuntimeManager.UpdateRuntimeInDeployYaml(h, paths.1.value, Stem(runtime));
    if r.Raise? {
      return;
    }
    r := RuntimeManager.CreateOrApplyDeployYaml(h, Lookup(cfg.doc, "paths", "deploy"), ns);
  }

  /** From the claim manifest to the model deployment; the profile pod's
      readiness is not waited for. */
  method Provision(h: Host, cfg: ConfigLoader.RunConfig, ns: string) returns (r: Result<()>, stages: seq<Stage>)
    modifies h`calls, h`files, h`clock, cfg`doc
    ensures Reached(stages, ProvisionOrder) && stages != []
    ensures r.Ok? ==> stages == ProvisionOrder
    ensures old(h.calls) <= h.calls
  {
    stages := ProvisionOrder[..1];
    r := EditClaim(h, cfg, ns);
    if r.Raise? {
      return;
    }
    stages := ProvisionOrder[..2];
    r := StartProfilePod(h, cfg, ns);
    if r.Raise? {
      return;
    }
    r, stages := ServeModel(h, cfg, ns);
  }

  /** The stages after the profile pod: its logs, the download, the
      serving runtime and the deployment. */
  method ServeModel(h: Host, cfg: ConfigLoader.RunConfig, ns: string) returns (r: Result<()>, stages: seq<Stage>)
    modifies h`calls, h`files, h`clock, cfg`doc
    ensures 3 <= |stages| <= |ProvisionOrder| && stages == ProvisionOrder[..|stages|]
    ensures r.Ok? ==> stages == ProvisionOrder
    ensures old(h.calls) <= h.calls
  {
    stages := ProvisionOrder[..3];
    ReadProfileLogs(h, cfg, ns);
    stages := ProvisionOrder[..4];
    r := DownloadModel(h, cfg, ns);
    if r.Raise? {
      return;
    }
    stages := ProvisionOrder[..5];
    r := ServeRuntime(h, cfg, ns);
    if r.Raise? {
      return;
    }
    stages := ProvisionOrder[..6];
    r := Deploy(h, cfg, ns);
  }

  /** The pod the benchmark runs in: the listing must succeed, and the
      first name starting with `genai-perf` is taken. */
  function GenaiPodOf(listing: Proc): (r: Result<string>)
    ensures r.Ok? <==> listing.Exit? && listing.code == 0 && PodManager.TargetPod(listing.out).Some?
    ensures Checked(listing).Raise? ==> r == Raise(Checked(listing).exc)
    ensures Checked(listing).Ok? && PodManager.TargetPod(listing.out).None? ==> r == Raise(ValueError(NoGenaiPod))
    ensures r.Ok? ==> r.value == PodManager.TargetPod(listing.out).value
  {
    var p :- Checked(listing);
    match PodManager.TargetPod(p.out)
    case None => Raise(ValueError(NoGenaiPod))
    case Some(pod) => Ok(pod)
  }

  /** The pod taken is the first listed name that starts with `genai-perf`. */
  lemma GenaiPodFirst(listing: Proc)
    requires GenaiPodOf(listing).Ok?
    ensures var names, pod := Words(Strip(listing.out)), GenaiPodOf(listing).value;
      && PodManager.IsGenaiPerf(pod)
      && exists i :: 0 <= i < |names| && names[i] == pod && forall j :: 0 <= j < i ==> !PodManager.IsGenaiPerf(names[j])
  {
    assert PodManager.TargetPod(listing.out) == First(Words(Strip(listing.out)), PodManager.IsGenaiPerf);
  }

  /** The pod lookup stage. */
  method LookUpGenaiPod(h: Host, ns: string) returns (r: Result<string>)
    modifies h`calls
    ensures h.calls == old(h.calls) + [PodManager.PodNamesCmd(ns)]
    ensures r == GenaiPodOf(h.respond(|old(h.calls)|))
  {
    var listing := h.Run(PodManager.PodNamesCmd(ns));
    r := GenaiPodOf(listing);
  }

  method RecordClusterIp(h: Host, ns: string, path: string)
    modifies h`calls, h`files
    ensures old(h.calls) <= h.calls
  {
    TomlUpdater.UpdateClusterIpInToml(h, ns, path);
  }

  method ClaimWorkdir(h: Host, path: string, ns: string) returns (r: Result<()>)
    modifies h`calls
    ensures old(h.calls) <= h.calls
  {
    r := PvcManager.CreateAndCheckPvc(h, path, ns);
  }

  method StartGenaiPod(h: Host, path: string, ns: string) returns (r: Result<()>)
    modifies h`calls
    ensures old(h.calls) <= h.calls
  {
    r := Utils.GenaiPodYaml(h, path, ns);
  }

  /** The exec stage, with the module-level namespace as the login
      namespace too. */
  method ExecGenaiPod(h: Host, cfg: ConfigLoader.RunConfig, ns: string) returns (r: Result<()>)
    modifies h`calls
    ensures old(h.calls) <= h.calls
  {
    r := PodManager.ExecIntoGenaiPerfPod(h, cfg, ns, ns);
  }

  method RunBenchmark(h: Host, path: string, pod: string, ns: string, timestamp: string) returns (r: Result<()>)
    modifies h`calls
    ensures old(h.calls) <= h.calls
  {
    r := Utils.RunBenchScriptFromPod(h, path, pod, ns, timestamp);
  }

  method CopyArtifacts(h: Host, ns: string, pod: string) returns (r: Result<()>)
    modifies h`calls, h`dirs
    ensures old(h.calls) <= h.calls
  {
    r := Utils.CopyArtifactsFromPodUsingToml(h, ns, pod);
  }

  /** The `genai-perf` pod is looked up before the cluster IP is recorded
      and the pod manifest is applied; then exec, benchmark and copy. */
  method Measure(h: Host, cfg: ConfigLoader.RunConfig, ns: string, timestamp: string) returns (r: Result<()>, stages: seq<Stage>)
    modifies h`calls, h`files, h`dirs
    ensures Reached(stages, MeasureOrder) && stages != []
    ensures r.Ok? ==> stages == MeasureOrder
    ensures old(h.calls) <= h.calls
    ensures var lookup := GenaiPodOf(h.respond(|old(h.calls)|));
      lookup.Raise? ==> r == Raise(lookup.exc) && stages == [PodLookup] && h.calls == old(h.calls) + [PodManager.PodNamesCmd(ns)]
  {
    stages := MeasureOrder[..1];
    var target := LookUpGenaiPod(h, ns);
    if target.Raise? {
      r := Raise(target.exc);
      return;
    }
    r, stages := MeasureIn(h, cfg, ns, target.value, timestamp);
  }

  /** Once the pod is known: cluster IP, work-directory claim, pod
      manifest, exec, benchmark and copy. */
  method MeasureIn(h: Host, cfg: ConfigLoader.RunConfig, ns: string, pod: string, timestamp: string) returns (r: Result<()>, stages: seq<Stage>)
    modifies h`calls, h`files, h`dirs
    ensures Reached(stages, MeasureOrder) && 2 <= |stages|
    ensures r.Ok? ==> stages == MeasureOrder
    ensures old(h.calls) <= h.calls
  {
    var path := ConfigLoader.UserInputPath(h.cwd);
    stages := MeasureOrder[..2];
    RecordClusterIp(h, ns, path);
    stages := MeasureOrder[..3];
    r := ClaimWorkdir(h, path, ns);
    if r.Raise? {
      return;
    }
    stages := MeasureOrder[..4];
    r := StartGenaiPod(h, path, ns);
    if r.Raise? {
      return;
    }
    stages := MeasureOrder[..5];
    r := ExecGenaiPod(h, cfg, ns);
    if r.Raise? {
      return;
    }
    stages := MeasureOrder[..6];
    r := RunBenchmark(h, path, pod, ns, timestamp);
    if r.Raise? {
      return;
    }
    stages := MeasureOrder[..7];
    r := CopyArtifacts(h, ns, pod);
  }


  /** `main()`, preceded by the module-level namespace lookup. The stages
      run in their fixed order and a run stops at the first stage that
      raises; missing keys stop it before any command. */
  method RunScheduler(h: Host, cfg: ConfigLoader.RunConfig, timestamp: string) returns (r: Result<()>, stages: seq<Stage>)
    modifies h`calls, h`files, h`clock, h`dirs, h`env, cfg`doc
    ensures Reached(stages, StageOrder)
    ensures r.Ok? ==> stages == StageOrder
    ensures ConfigLoader.Namespace(old(cfg.doc)).Raise? ==>
      r == Raise(ConfigLoader.Namespace(old(cfg.doc)).exc) && stages == [] && h.calls == old(h.calls)
    ensures var keys := Section(old(cfg.doc), "api_keys");
      ConfigLoader.Namespace(old(cfg.doc)).Ok? ==>
        && (!Given(Field(keys, "ngc_api_key")) ==>
              r == Raise(ValueError(MissingNgc)) && stages == [Credentials] && h.calls == old(h.calls))
        && (Given(Field(keys, "ngc_api_key")) && !Given(Field(keys, "hugging_face_token")) ==>
              r == Raise(ValueError(MissingHf)) && stages == [Credentials] && h.calls == old(h.calls))
        && (Given(Field(keys, "ngc_api_key")) && Given(Field(keys, "hugging_face_token")) ==>
              |h.calls| > |old(h.calls)| && h.calls[|old(h.calls)|] == GetNsCmd(ConfigLoader.Namespace(old(cfg.doc)).value))
  {
    var nsr := ConfigLoader.Namespace(cfg.doc);
    if nsr.Raise? {
      r, stages := Raise(nsr.exc), [];
      return;
    }
    var ns := nsr.value;
    var s1, s2, s3;
    r, s1 := Prelude(h, cfg, ns);
    stages := StageOrder[..|s1|];
    if r.Raise? {
      return;
    }
    r, s2 := Provision(h, cfg, ns);
    stages := StageOrder[..|PreludeOrder| + |s2|];
    if r.Raise? {
      return;
    }
    r, s3 := Measure(h, cfg, ns, timestamp);
    stages := StageOrder[..|PreludeOrder| + |ProvisionOrder| + |s3|];
  }
}
