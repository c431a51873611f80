/** Persistent volume claims: the claim manifest edited from the
    `pvc_details` settings and applied, and the work-directory claim. */
module PvcManager {

  import opened Base
  import opened Docs
  import opened Platform
  import opened Kube
  import opened PyStr

  const ReadFailure := " Failed to read PVC YAML"
  const WriteFailure := " Failed to write PVC YAML"
  const ApplyFailure := " Failed to apply PVC YAML"

  /** `pvc_config["pvc_yaml_path"]`, read inside the `try` whose generic
      handler turns any failure into an exit carrying the exception's text:
      the key's `repr` for a missing key, `open`'s `TypeError` for a value
      that is no path. */
  function PvcPath(pvcConfig: map<string, Value>): (r: Result<string>)
    ensures r.Ok? <==> "pvc_yaml_path" in pvcConfig && pvcConfig["pvc_yaml_path"].Str?
    ensures r.Ok? ==> r.value == pvcConfig["pvc_yaml_path"].s
    ensures "pvc_yaml_path" !in pvcConfig ==> r == Raise(SystemExit(ReadFailure + ": " + Repr("pvc_yaml_path")))
    ensures "pvc_yaml_path" in pvcConfig && NotPath(pvcConfig["pvc_yaml_path"]).Some? ==>
      r == Raise(SystemExit(ReadFailure + NotPathText + NotPath(pvcConfig["pvc_yaml_path"]).value))
  {
    if "pvc_yaml_path" !in pvcConfig then Raise(SystemExit(ReadFailure + ": " + Repr("pvc_yaml_path")))
    else
      var v := pvcConfig["pvc_yaml_path"];
      if v.Str? then Ok(v.s)
      else if NotPath(v).Some? then Raise(SystemExit(ReadFailure + NotPathText + NotPath(v).value))
      else Raise(SystemExit(ReadFailure))
  }

  const NotPathText := ": expected str, bytes or os.PathLike object, not "

  /** The Python type name `open` reports for a value it cannot take as a
      path or a file descriptor. */
  function NotPath(v: Value): Option<string> {
    match v
    case Null => Some("NoneType")
    case List(_) => Some("list")
    case Table(_) => Some("dict")
    case _ => None
  }

  lemma ReprPvcYamlPath()
    ensures Repr("pvc_yaml_path") == "'" + "pvc_yaml_path" + "'"
  {
    PlainBody("pvc_yaml_path", '\'');
    assert ReprQuote("pvc_yaml_path") == '\'';
  }

  /** The missing key's exit message: the read-failure text, then the key
      between single quotes, as `str(KeyError('pvc_yaml_path'))` prints it. */
  lemma PvcPathMissing(pvcConfig: map<string, Value>)
    requires "pvc_yaml_path" !in pvcConfig
    ensures PvcPath(pvcConfig) == Raise(SystemExit(ReadFailure + ": " + ("'" + "pvc_yaml_path" + "'")))
  {
    ReprPvcYamlPath();
  }

  const ClassPath: Path := [Key("spec")]
  const SizePath: Path := [Key("spec"), Key("resources"), Key("requests")]

  /** `pvc_config[key]` on the right of an assignment: evaluated before the
      target, so a missing key raises first. */
  function Setting(pvcConfig: map<string, Value>, key: string): (r: Result<Value>)
    ensures r.Ok? <==> key in pvcConfig
    ensures r.Ok? ==> r.value == pvcConfig[key]
    ensures r.Raise? ==> r.exc == KeyError
  {
    if key in pvcConfig then Ok(pvcConfig[key]) else Raise(KeyError)
  }

  /** The checks between reading the file and editing it: a missing file,
      an unreadable one, an empty one and one without `spec` end the
      process; `in` on a scalar raises `TypeError`. */
  function PvcChecked(path: string, loaded: Result<Value>): (r: Result<Value>)
    ensures r.Ok? <==> loaded.Ok? && loaded.value != Null && In("spec", loaded.value) == Ok(true)
    ensures r.Ok? ==> r.value == loaded.value
    ensures loaded.Raise? && loaded.exc.FileNotFoundError? ==> r == Raise(SystemExit(" PVC YAML file not found: " + path))
    ensures loaded.Raise? && !loaded.exc.FileNotFoundError? ==> r == Raise(SystemExit(ReadFailure))
    ensures loaded == Ok(Null) ==> r == Raise(SystemExit(" PVC YAML file is empty: " + path))
    ensures loaded.Ok? && loaded.value.Table? && "spec" !in loaded.value.fields ==>
      r == Raise(SystemExit(" PVC YAML missing 'spec' section: " + path))
    ensures loaded.Ok? && !(loaded.value.Null? || loaded.value.Table? || loaded.value.List? || loaded.value.Str?) ==>
      r == Raise(TypeError)
  {
    match loaded
    case Raise(FileNotFoundError(_)) => Raise(SystemExit(" PVC YAML file not found: " + path))
    case Raise(_) => Raise(SystemExit(ReadFailure))
    case Ok(pvc) =>
      if pvc == Null then Raise(SystemExit(" PVC YAML file is empty: " + path))
      else
        var has :- In("spec", pvc);
        if !has then Raise(SystemExit(" PVC YAML missing 'spec' section: " + path))
        else Ok(pvc)
  }

  /** The two assignments, each right-hand side read before its target. */
  function PvcAssign(pvcConfig: map<string, Value>, pvc: Value): Result<Value> {
    var sc :- Setting(pvcConfig, "storage_class");
    var pvc1 :- Assign(pvc, ClassPath, "storageClassName", sc);
    var ss :- Setting(pvcConfig, "storage_size");
    Assign(pvc1, SizePath, "storage", ss)
  }

  function PvcEdit(pvcConfig: map<string, Value>, path: string, loaded: Result<Value>): Result<Value> {
    var pvc :- PvcChecked(path, loaded);
    PvcAssign(pvcConfig, pvc)
  }

  /** The assignments succeed exactly when both settings are given, `spec`
      is a mapping and `spec.resources.requests` is one; the class and the
      size are then set and nothing else under those paths' parents changes. */
  lemma PvcAssignSpec(pvcConfig: map<string, Value>, pvc: Value)
    ensures var r := PvcAssign(pvcConfig, pvc);
      r.Ok? <==>
        && "storage_class" in pvcConfig && "storage_size" in pvcConfig
        && Get(pvc, ClassPath).Ok? && Get(pvc, ClassPath).value.Table?
        && Get(pvc, SizePath).Ok? && Get(pvc, SizePath).value.Table?
    ensures var r := PvcAssign(pvcConfig, pvc);
      r.Ok? ==>
        && Get(r.value, ClassPath + [Key("storageClassName")]) == Ok(pvcConfig["storage_class"])
        && Get(r.value, SizePath + [Key("storage")]) == Ok(pvcConfig["storage_size"])
        && forall q :: Diverge(ClassPath + [Key("storageClassName")], q) && Diverge(SizePath + [Key("storage")], q) ==>
             Get(r.value, q) == Get(pvc, q)
  {
    if "storage_class" in pvcConfig && Get(pvc, ClassPath).Ok? && Get(pvc, ClassPath).value.Table? {
      var ck := ClassPath + [Key("storageClassName")];
      var sk := SizePath + [Key("storage")];
      assert ck == [Key("spec"), Key("storageClassName")];
      assert sk == [Key("spec"), Key("resources"), Key("requests"), Key("storage")];
      assert Diverge(ck, SizePath) by {
        DivergeAfter([Key("spec")], Key("storageClassName"), Key("resources"), [], [Key("requests")]);
        assert [Key("spec")] + [Key("storageClassName")] + [] == ck;
        assert [Key("spec")] + [Key("resources")] + [Key("requests")] == SizePath;
      }
      assert Diverge(sk, ck) by {
        DivergeAfter([Key("spec")], Key("resources"), Key("storageClassName"), [Key("requests"), Key("storage")], []);
        assert [Key("spec")] + [Key("resources")] + [Key("requests"), Key("storage")] == sk;
        assert [Key("spec")] + [Key("storageClassName")] + [] == ck;
      }
      if "storage_size" in pvcConfig {
        AssignBoth(pvc, ClassPath, "storageClassName", pvcConfig["storage_class"], SizePath, "storage", pvcConfig["storage_size"]);
      } else {
        AssignBoth(pvc, ClassPath, "storageClassName", pvcConfig["storage_class"], SizePath, "storage", Null);
      }
    }
  }

  function PvcApplyCmd(ns: string, path: string): Command {
    Kubectl(["apply", "-n", ns, "-f", path])
  }

  /** The checked apply: its `CalledProcessError` becomes an exit carrying
      the error's text; a failed start is not caught. */
  function ApplyOutcome(argv: seq<string>, p: Proc): (r: Result<()>)
    ensures r.Ok? <==> p.Exit? && p.code == 0
    ensures p.Exit? && p.code > 0 ==> r == Raise(SystemExit(ApplyFailure + ": " + CalledProcessText(argv, p.code)))
    ensures p.Exit? && p.code < 0 ==> r == Raise(SystemExit(ApplyFailure))
    ensures p.NotLaunched? ==> r == Raise(OSError("kubectl"))
  {
    match p
    case NotLaunched => Raise(OSError("kubectl"))
    case Exit(code, _, _) =>
      if code > 0 then Raise(SystemExit(ApplyFailure + ": " + CalledProcessText(argv, code)))
      else if code < 0 then Raise(SystemExit(ApplyFailure))
      else Ok(())
  }

  /** `update_pvc_yaml`, with the module-level namespace passed in. */
  method UpdatePvcYaml(h: Host, pvcConfig: map<string, Value>, ns: string) returns (r: Result<()>)
    modifies h`files, h`calls
    ensures match PvcPath(pvcConfig)
      case Raise(e) => r == Raise(e) && h.files == old(h.files) && h.calls == old(h.calls)
      case Ok(path) =>
        match PvcEdit(pvcConfig, path, old(h.Load(path)))
        case Raise(e) => r == Raise(e) && h.files == old(h.files) && h.calls == old(h.calls)
        case Ok(d) =>
          && h.files == (if h.canWrite(path) then old(h.files)[path := Doc(d)] else old(h.files))
          && (!h.canWrite(path) ==> r == Raise(SystemExit(WriteFailure)) && h.calls == old(h.calls))
          && (h.canWrite(path) ==>
                h.calls == old(h.calls) + [PvcApplyCmd(ns, path)] && r == ApplyOutcome(PvcApplyCmd(ns, path).argv, h.respond(|old(h.calls)|)))
  {
    var path :- PvcPath(pvcConfig);
    var loaded := h.Load(path);
    if loaded.Raise? {
      if loaded.exc.FileNotFoundError? {
        return Raise(SystemExit(" PVC YAML file not found: " + path));
      }
      return Raise(SystemExit(ReadFailure));
    }
    var pvc := loaded.value;
    if pvc == Null {
      return Raise(SystemExit(" PVC YAML file is empty: " + path));
    }
    var has :- In("spec", pvc);
    if !has {
      return Raise(SystemExit(" PVC YAML missing 'spec' section: " + path));
    }
    var sc :- Setting(pvcConfig, "storage_class");
    pvc :- Assign(pvc, ClassPath, "storageClassName", sc);
    var ss :- Setting(pvcConfig, "storage_size");
    pvc :- Assign(pvc, SizePath, "storage", ss);
    var written := h.Dump(path, pvc);
    if written.Raise? {
      return Raise(SystemExit(WriteFailure));
    }
    var p := h.Run(PvcApplyCmd(ns, path));
    r := ApplyOutcome(PvcApplyCmd(ns, path).argv, p);
  }

  const MissingWorkdirPvc := "Missing 'workdir_pvc' path under [paths] in the TOML file."

  function PvcListCmd(ns: string): Command {
    Kubectl(["get", "pvc", "-n", ns])
  }

  /** `create_and_check_pvc`: the claim manifest path is read from the file
      on disk; a missing one raises `ValueError` before any command; then
      create-or-apply and a claim listing. */
  method CreateAndCheckPvc(h: Host, tomlPath: string, ns: string) returns (r: Result<()>)
    modifies h`calls
    ensures match h.Load(tomlPath)
      case Raise(e) => r == Raise(e) && h.calls == old(h.calls)
      case Ok(config) =>
        var p := Lookup(config, "paths", "workdir_pvc");
        if !Given(p) then r == Raise(ValueError(MissingWorkdirPvc)) && h.calls == old(h.calls)
        else
          var n := |old(h.calls)|;
          var create, apply := h.respond(n), h.respond(n + 1);
          && h.calls == old(h.calls) + DeployCalls(create, apply, p.value, ns, PvcListCmd(ns))
          && r == DeployResult(create, apply, h.respond(n + |CreateOrApplyCalls(create, p.value, ns)|))
  {
    var config :- h.Load(tomlPath);
    var p := Lookup(config, "paths", "workdir_pvc");
    if !Given(p) {
      return Raise(ValueError(MissingWorkdirPvc));
    }
    r := CreateApplyAndList(h, p.value, ns, PvcListCmd(ns));
  }
}
