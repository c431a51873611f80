/** The model download job, the `genai-perf` pod, the benchmark run inside
    it and copying its artifacts out. */
module Utils {

  import opened Base
  import opened PyStr
  import opened Docs
  import opened Platform
  import opened Kube
  import opened ConfigLoader

  // ---------------------------------------------------------------------
  // update_download_yaml

  /** `spec.template.spec.containers[0]` of the download job. */
  const JobContainerPath: Path := [Key("spec"), Key("template"), Key("spec"), Key("containers"), At(0)]

  function DownloadArgs(id: string): Value {
    List([Str("download-to-cache"), Str("--profile"), Str(id)])
  }

  /** The edit of the loaded job manifest: the container's image and its
      arguments `download-to-cache --profile <id>`. */
  function DownloadEdit(loaded: Result<Value>, image: string, id: string): Result<Value> {
    var v :- loaded;
    var v1 :- Assign(v, JobContainerPath, "image", Str(image));
    Assign(v1, JobContainerPath, "args", DownloadArgs(id))
  }

  /** The edit succeeds exactly when the container is there and is a
      mapping; otherwise the lookup's error or `TypeError` is raised. */
  lemma DownloadEditSucceeds(v: Value, image: string, id: string)
    ensures DownloadEdit(Ok(v), image, id).Ok? <==> Get(v, JobContainerPath).Ok? && Get(v, JobContainerPath).value.Table?
    ensures Get(v, JobContainerPath).Raise? ==> DownloadEdit(Ok(v), image, id) == Raise(Get(v, JobContainerPath).exc)
  {
    var a1 := Assign(v, JobContainerPath, "image", Str(image));
    if a1.Ok? {
      AssignAt(v, JobContainerPath, "image", Str(image));
    }
  }

  /** A successful edit sets the image and the arguments, and every other
      path, the container's other keys included, reads as before. */
  lemma DownloadEditSpec(v: Value, image: string, id: string)
    requires DownloadEdit(Ok(v), image, id).Ok?
    ensures var d := DownloadEdit(Ok(v), image, id).value;
      && Get(d, JobContainerPath + [Key("image")]) == Ok(Str(image))
      && Get(d, JobContainerPath + [Key("args")]) == Ok(DownloadArgs(id))
      && (forall q :: Diverge(JobContainerPath + [Key("image")], q) && Diverge(JobContainerPath + [Key("args")], q) ==>
            Get(d, q) == Get(v, q))
      && forall q :: Diverge(JobContainerPath, q) ==> Get(d, q) == Get(v, q)
  {
    AssignTwo(v, JobContainerPath, "image", Str(image), "args", DownloadArgs(id));
  }

  /** `update_download_yaml`: load, edit, write back; a write failure raises. */
  method UpdateDownloadYaml(h: Host, path: string, image: string, id: string) returns (r: Result<()>)
    modifies h`files
    ensures match DownloadEdit(old(h.Load(path)), image, id)
      case Raise(e) => r == Raise(e) && h.files == old(h.files)
      case Ok(d) =>
        && h.files == (if h.canWrite(path) then old(h.files)[path := Doc(d)] else old(h.files))
        && (r.Ok? <==> h.canWrite(path)) && (r.Raise? ==> r.exc == OSError(path))
  {
    var data :- h.Load(path);
    var d1 :- Assign(data, JobContainerPath, "image", Str(image));
    var d2 :- Assign(d1, JobContainerPath, "args", DownloadArgs(id));
    r := h.Dump(path, d2);
  }

  // ---------------------------------------------------------------------
  // create_download_job and run_download_flow

  const JobFailure := "Job creation failed."

  /** `create_download_job`: an existing job is skipped. */
  method CreateDownloadJob(h: Host, path: string, ns: string) returns (r: Result<()>)
    modifies h`calls
    ensures h.calls == old(h.calls) + [CreateCmd(path, ns)]
    ensures r == CreateOrSkip(h.respond(|old(h.calls)|), JobFailure)
  {
    var p := h.Run(CreateCmd(path, ns));
    r := CreateOrSkip(p, JobFailure);
  }

  /** `run_download_flow`: the job manifest, image and model id come from the
      shared in-memory configuration; the manifest is edited, then the job
      is created. */
  method RunDownloadFlow(h: Host, cfg: RunConfig, ns: string) returns (r: Result<()>)
    modifies h`calls, h`files
    ensures match LoadTomlConfig(cfg.doc)
      case Raise(e) => r == Raise(e) && h.calls == old(h.calls) && h.files == old(h.files)
      case Ok(t) =>
        match DownloadEdit(old(h.Load(t.0)), t.1, t.2)
        case Raise(e) => r == Raise(e) && h.calls == old(h.calls) && h.files == old(h.files)
        case Ok(d) =>
          && h.files == (if h.canWrite(t.0) then old(h.files)[t.0 := Doc(d)] else old(h.files))
          && (!h.canWrite(t.0) ==> r == Raise(OSError(t.0)) && h.calls == old(h.calls))
          && (h.canWrite(t.0) ==>
                h.calls == old(h.calls) + [CreateCmd(t.0, ns)] && r == CreateOrSkip(h.respond(|old(h.calls)|), JobFailure))
  {
    var t :- LoadTomlConfig(cfg.doc);
    var edited := UpdateDownloadYaml(h, t.0, t.1, t.2);
    if edited.Raise? {
      return edited;
    }
    r := CreateDownloadJob(h, t.0, ns);
  }

  // ---------------------------------------------------------------------
  // genai_pod_yaml

  const MissingGenaiYaml := "Missing 'genai_pod_yaml' path under [paths] in the TOML file."

  /** `genai_pod_yaml`: the manifest path is read from the file on disk (not
      the shared configuration); a missing one raises `ValueError` before
      any command; then create-or-apply and a pod listing. */
  method GenaiPodYaml(h: Host, tomlPath: string, ns: string) returns (r: Result<()>)
    modifies h`calls
    ensures match h.Load(tomlPath)
      case Raise(e) => r == Raise(e) && h.calls == old(h.calls)
      case Ok(config) =>
        var p := Lookup(config, "paths", "genai_pod_yaml");
        if !Given(p) then r == Raise(ValueError(MissingGenaiYaml)) && h.calls == old(h.calls)
        else
          var n := |old(h.calls)|;
          var create, apply := h.respond(n), h.respond(n + 1);
          && h.calls == old(h.calls) + DeployCalls(create, apply, p.value, ns, PodsCmd(ns))
          && r == DeployResult(create, apply, h.respond(n + |CreateOrApplyCalls(create, p.value, ns)|))
  {
    var config :- h.Load(tomlPath);
    var p := Lookup(config, "paths", "genai_pod_yaml");
    if !Given(p) {
      return Raise(ValueError(MissingGenaiYaml));
    }
    r := CreateApplyAndList(h, p.value, ns, PodsCmd(ns));
  }

  // ---------------------------------------------------------------------
  // run_bench_script_from_pod

  /** Flags and values alternating: `f0 v0 f1 v1 ...`. */
  function Interleave(f: seq<string>, v: seq<string>): (s: seq<string>)
    requires |f| == |v|
    ensures |s| == 2 * |f|
    ensures forall i :: 0 <= i < |f| ==> s[2 * i] == f[i] && s[2 * i + 1] == v[i]
    decreases |f|
  {
    if f == [] then []
    else
      var rest := Interleave(f[1..], v[1..]);
      assert forall i :: 1 <= i < |f| ==> f[1..][i - 1] == f[i] && v[1..][i - 1] == v[i];
      [f[0], v[0]] + rest
  }

  /** The elements at even positions. */
  function Evens(s: seq<string>): seq<string>
    decreases |s|
  {
    if |s| < 2 then s else [s[0]] + Evens(s[2..])
  }

  /** The elements at odd positions. */
  function Odds(s: seq<string>): seq<string>
    decreases |s|
  {
    if |s| < 2 then [] else [s[1]] + Odds(s[2..])
  }

  /** An interleaved argument list splits back into its flags and values. */
  lemma {:induction false} InterleaveRoundTrip(f: seq<string>, v: seq<string>)
    requires |f| == |v|
    ensures Evens(Interleave(f, v)) == f
    ensures Odds(Interleave(f, v)) == v
    decreases |f|
  {
    if f != [] {
      var rest := Interleave(f[1..], v[1..]);
      InterleaveRoundTrip(f[1..], v[1..]);
      var s := Interleave(f, v);
      assert s == [f[0], v[0]] + rest;
      assert s[2..] == rest;
      assert Evens(s) == [f[0]] + f[1..];
      assert Odds(s) == [v[0]] + v[1..];
    }
  }

  const BenchFlags: seq<string> := ["--model", "--measurement-interval", "--tokenizer", "--url",
    "--export-file-name", "--concurrency-values", "--use-cases", "--artifacts-dir"]

  /** The `final_exec` keys passed to the script, in argument order. */
  const BenchKeys: seq<string> := ["model", "measurement_interval", "tokenizer", "concurrency_values",
    "use_cases", "artifacts_dir"]

  /** `config1[k]` for every key, in order: a missing key is a `KeyError`. */
  function BenchValues(fe: map<string, Value>): (r: Result<seq<Value>>)
    ensures r.Ok? <==> forall i :: 0 <= i < |BenchKeys| ==> BenchKeys[i] in fe
    ensures r.Ok? ==> |r.value| == |BenchKeys| && forall i :: 0 <= i < |BenchKeys| ==> r.value[i] == fe[BenchKeys[i]]
    ensures r.Raise? ==> r.exc == KeyError
  {
    if forall i :: 0 <= i < |BenchKeys| ==> BenchKeys[i] in fe
    then Ok(seq(|BenchKeys|, i requires 0 <= i < |BenchKeys| => fe[BenchKeys[i]]))
    else Raise(KeyError)
  }

  /** The arguments handed to `subprocess.run`, which refuses any that is
      not a string with `TypeError`. */
  function StringArgs(vals: seq<Value>): (r: Result<seq<string>>)
    ensures r.Ok? <==> forall i :: 0 <= i < |vals| ==> vals[i].Str?
    ensures r.Ok? ==> |r.value| == |vals| && forall i :: 0 <= i < |vals| ==> vals[i] == Str(r.value[i])
    ensures r.Raise? ==> r.exc == TypeError
  {
    if forall i :: 0 <= i < |vals| ==> vals[i].Str?
    then Ok(seq(|vals|, i requires 0 <= i < |vals| => vals[i].s))
    else Raise(TypeError)
  }

  function ExecIn(ns: string, pod: string, argv: seq<string>): Command {
    Kubectl(["exec", "-n", ns, pod, "--"] + argv)
  }

  /** The benchmark invocation: `bash <script>` followed by each flag with
      its value. */
  function BenchCmd(ns: string, pod: string, script: string, ip: string, exportName: string, args: seq<string>): Command
    requires |args| == |BenchKeys|
  {
    ExecIn(ns, pod, ["bash", script] + Interleave(BenchFlags,
      [args[0], args[1], args[2], "http://" + ip, exportName, args[3], args[4], args[5]]))
  }

  /** The values of the flags are the configured ones, each right after its
      flag; the URL is built from the cluster IP and the export name carries
      the timestamp. */
  lemma BenchCmdFlags(ns: string, pod: string, script: string, ip: string, exportName: string, args: seq<string>)
    requires |args| == |BenchKeys|
    ensures var argv := BenchCmd(ns, pod, script, ip, exportName, args).argv;
      && |argv| == 24 && argv[..8] == ["kubectl", "exec", "-n", ns, pod, "--", "bash", script]
      && Evens(argv[8..]) == BenchFlags
      && Odds(argv[8..]) == [args[0], args[1], args[2], "http://" + ip, exportName, args[3], args[4], args[5]]
  {
    var vals := [args[0], args[1], args[2], "http://" + ip, exportName, args[3], args[4], args[5]];
    var tail := Interleave(BenchFlags, vals);
    ExecScriptArgv(ns, pod, script, tail);
    InterleaveRoundTrip(BenchFlags, vals);
  }

  /** The argument vector of `kubectl exec ... -- bash <script> <tail>`. */
  lemma ExecScriptArgv(ns: string, pod: string, script: string, tail: seq<string>)
    ensures var argv := ExecIn(ns, pod, ["bash", script] + tail).argv;
      && |argv| == 8 + |tail|
      && argv[..8] == ["kubectl", "exec", "-n", ns, pod, "--", "bash", script]
      && argv[8..] == tail
  {
    var pre := ["kubectl", "exec", "-n", ns, pod, "--", "bash", script];
    var argv := ExecIn(ns, pod, ["bash", script] + tail).argv;
    assert argv == pre + tail;
  }

  const MissingBenchInputs := "Missing 'shell_script' or 'cluster_ip' in TOML file."

  /** What the benchmark step does with the loaded file: raise before any
      command, or run `chmod` and then either raise or run the script. */
  function BenchPlan(config: Value, pod: string, ns: string, timestamp: string): Result<(Command, Result<Command>)> {
    var script := Lookup(config, "paths", "shell_script");
    var ip := Lookup(config, "values", "cluster_ip");
    var fe := Section(config, "final_exec");
    if !Given(script) || !Given(ip) then Raise(ValueError(MissingBenchInputs))
    else if "export_file_name" !in fe then Raise(KeyError)
    else if !fe["export_file_name"].Str? then Raise(TypeError)
    else
      var exportName := fe["export_file_name"].s + "_" + timestamp;
      var chmod := ExecIn(ns, pod, ["chmod", "+x", script.value]);
      var exec := match BenchValues(fe)
        case Raise(e) => Raise(e)
        case Ok(vals) =>
          (match StringArgs(vals)
           case Raise(e) => Raise(e)
           case Ok(args) => Ok(BenchCmd(ns, pod, script.value, ip.value, exportName, args)));
      Ok((chmod, exec))
  }

  /** `run_bench_script_from_pod`; the timestamp is a parameter. */
  method RunBenchScriptFromPod(h: Host, tomlPath: string, pod: string, ns: string, timestamp: string) returns (r: Result<()>)
    modifies h`calls
    ensures match h.Load(tomlPath)
      case Raise(e) => r == Raise(e) && h.calls == old(h.calls)
      case Ok(config) =>
        match BenchPlan(config, pod, ns, timestamp)
        case Raise(e) => r == Raise(e) && h.calls == old(h.calls)
        case Ok(plan) =>
          var n := |old(h.calls)|;
          if Checked(h.respond(n)).Raise? then r == Ran(Checked(h.respond(n))) && h.calls == old(h.calls) + [plan.0]
          else
            match plan.1
            case Raise(e) => r == Raise(e) && h.calls == old(h.calls) + [plan.0]
            case Ok(exec) => r == Ran(Checked(h.respond(n + 1))) && h.calls == old(h.calls) + [plan.0, exec]
  {
    var config :- h.Load(tomlPath);
    var plan :- BenchPlan(config, pod, ns, timestamp);
    var chmod := h.Run(plan.0);
    var _ :- Checked(chmod);
    var exec :- plan.1;
    RanTwo(old(h.calls), plan.0, exec);
    var p := h.Run(exec);
    r := Ran(Checked(p));
  }

  // ---------------------------------------------------------------------
  // copy_artifacts_from_pod_using_toml

  /** The `kubectl cp` source `<ns>/<pod>:<path>`. */
  function CopySource(ns: string, pod: string, path: string): string {
    ns + "/" + pod + ":" + path
  }

  /** `kubectl cp` reads the source back at its first colon: the pod
      reference before it, the path after it, as long as the namespace and
      pod name hold no colon. */
  lemma CopySourceParts(ns: string, pod: string, path: string)
    requires ':' !in ns && ':' !in pod
    ensures var s := CopySource(ns, pod, path);
      && Split(s, ":")[0] == ns + "/" + pod
      && s[|ns + "/" + pod| + 1..] == path
  {
    var a := ns + "/" + pod;
    assert ':' !in a;
    assert CopySource(ns, pod, path) == a + [':'] + path;
    FirstPiece(a, ':', path);
  }

  /** `copy_artifacts_from_pod_using_toml`: both paths come from
      `user_input.toml` on disk; the destination is created, then copied into. */
  method CopyArtifactsFromPodUsingToml(h: Host, ns: string, pod: string) returns (r: Result<()>)
    modifies h`calls, h`dirs
    ensures match h.Load(UserInputPath(h.cwd))
      case Raise(e) => r == Raise(e) && h.calls == old(h.calls) && h.dirs == old(h.dirs)
      case Ok(config) =>
        var art, dest := GetStr(config, [Key("paths"), Key("pod_artifacts_path")]), GetStr(config, [Key("paths"), Key("destination_path")]);
        if art.Raise? then r == Raise(art.exc) && h.calls == old(h.calls) && h.dirs == old(h.dirs)
        else if dest.Raise? then r == Raise(dest.exc) && h.calls == old(h.calls) && h.dirs == old(h.dirs)
        else if dest.value in h.files then r == Raise(OSError(dest.value)) && h.calls == old(h.calls) && h.dirs == old(h.dirs)
        else
          && h.dirs == old(h.dirs) + {dest.value}
          && h.calls == old(h.calls) + [Kubectl(["cp", CopySource(ns, pod, art.value), dest.value])]
          && r == Ran(Checked(h.respond(|old(h.calls)|)))
  {
    var config :- h.Load(UserInputPath(h.cwd));
    var art :- GetStr(config, [Key("paths"), Key("pod_artifacts_path")]);
    var dest :- GetStr(config, [Key("paths"), Key("destination_path")]);
    var made := h.MakeDirs(dest);
    if made.Raise? {
      return made;
    }
    var p := h.Run(Kubectl(["cp", CopySource(ns, pod, art), dest]));
    r := Ran(Checked(p));
  }
}
