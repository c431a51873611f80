/** The run configuration: `user_input.toml`, loaded once when the module is
    imported, and the accessors that validate and read parts of it. */
module ConfigLoader {

  import opened Base
  import opened Docs
  import opened Platform

  /** `os.path.join(os.getcwd(), "user_input.toml")`. */
  function UserInputPath(cwd: string): string {
    JoinPath(cwd, "user_input.toml")
  }

  /** The dictionary loaded at import. Every `load_config()` caller holds
      this one object, so an assignment made through one caller is seen by
      all of them. */
  class RunConfig {
    var doc: Value

    constructor (doc: Value)
      ensures this.doc == doc
    {
      this.doc := doc;
    }
  }

  /** What importing the module yields: a missing file stops the import with
      `FileNotFoundError`; otherwise the file is loaded. */
  function ImportConfig(h: Host): (r: Result<Value>)
    reads h`files, h`dirs
    ensures !h.Exists(UserInputPath(h.cwd)) ==> r == Raise(FileNotFoundError(UserInputPath(h.cwd)))
    ensures r.Ok? <==> h.Load(UserInputPath(h.cwd)).Ok?
    ensures r.Ok? ==> r.value == h.files[UserInputPath(h.cwd)].v
  {
    var path := UserInputPath(h.cwd);
    if !h.Exists(path) then Raise(FileNotFoundError(path)) else h.Load(path)
  }

  /** Import the module: the shared configuration object. */
  method Import(h: Host) returns (r: Result<RunConfig>)
    ensures r.Raise? <==> ImportConfig(h).Raise?
    ensures r.Raise? ==> r.exc == ImportConfig(h).exc
    ensures r.Ok? ==> fresh(r.value) && r.value.doc == ImportConfig(h).value
  {
    match ImportConfig(h)
    case Raise(e) =>
      r := Raise(e);
    case Ok(v) =>
      var cfg := new RunConfig(v);
      r := Ok(cfg);
  }

  /** `load_config()`: always the object loaded at import, never a copy. */
  method LoadConfig(cfg: RunConfig) returns (c: RunConfig)
    ensures c == cfg
  {
    c := cfg;
  }

  /** The module-level `NAMESPACE = config["constants"]["namespace"]`. */
  function Namespace(doc: Value): (r: Result<string>)
    ensures r.Ok? <==> Get(doc, [Key("constants"), Key("namespace")]).Ok? && Get(doc, [Key("constants"), Key("namespace")]).value.Str?
    ensures r.Ok? ==> Get(doc, [Key("constants"), Key("namespace")]) == Ok(Str(r.value))
    ensures Get(doc, [Key("constants"), Key("namespace")]).Raise? ==> r.Raise? && r.exc == Get(doc, [Key("constants"), Key("namespace")]).exc
  {
    GetStr(doc, [Key("constants"), Key("namespace")])
  }

  /** `load_profile_list_config()`: `profile_list.yaml_path`, which must be
      given and name an existing file. */
  function LoadProfileListConfig(doc: Value, h: Host): (r: Result<string>)
    reads h`files, h`dirs
    ensures var p := Lookup(doc, "profile_list", "yaml_path");
      && (r.Ok? <==> Given(p) && h.IsFile(p.value))
      && (r.Ok? ==> r.value == p.value)
      && (r.Raise? ==> r.exc.FileNotFoundError?)
  {
    var p := Lookup(doc, "profile_list", "yaml_path");
    if !Given(p) then Raise(FileNotFoundError("None"))
    else if !h.IsFile(p.value) then Raise(FileNotFoundError(p.value))
    else Ok(p.value)
  }

  /** `load_profile_config()`: `(metadata_name, pattern)` from `[profile]`,
      both of which must be non-empty. */
  function LoadProfileConfig(doc: Value): (r: Result<(string, string)>)
    ensures var m, p := Lookup(doc, "profile", "metadata_name"), Lookup(doc, "profile", "pattern");
      && (r.Ok? <==> Given(m) && Given(p))
      && (r.Ok? ==> r.value == (m.value, p.value) && r.value.0 != [] && r.value.1 != [])
      && (r.Raise? ==> r.exc.ValueError?)
  {
    var m, p := Lookup(doc, "profile", "metadata_name"), Lookup(doc, "profile", "pattern");
    if !Given(m) || !Given(p) then
      Raise(ValueError("Both 'metadata_name' and 'pattern' must be set in [profile] section of the TOML."))
    else Ok((m.value, p.value))
  }

  const DownloadYamlPath: Path := [Key("download"), Key("download_yaml")]
  const ImagePath: Path := [Key("profile"), Key("image")]
  const SelectedModelIdPath: Path := [Key("profile"), Key("selected_model_id")]

  /** `load_toml_config()`: `(download.download_yaml, profile.image,
      profile.selected_model_id)` by direct indexing, so the first missing
      key raises its `KeyError`. */
  function LoadTomlConfig(doc: Value): (r: Result<(string, string, string)>)
    ensures r.Ok? <==> GetStr(doc, DownloadYamlPath).Ok? && GetStr(doc, ImagePath).Ok? && GetStr(doc, SelectedModelIdPath).Ok?
    ensures r.Ok? ==> r.value == (GetStr(doc, DownloadYamlPath).value, GetStr(doc, ImagePath).value, GetStr(doc, SelectedModelIdPath).value)
    ensures GetStr(doc, DownloadYamlPath).Raise? ==> r == Raise(GetStr(doc, DownloadYamlPath).exc)
  {
    var yamlPath :- GetStr(doc, DownloadYamlPath);
    var image :- GetStr(doc, ImagePath);
    var id :- GetStr(doc, SelectedModelIdPath);
    Ok((yamlPath, image, id))
  }

  /** `read_paths_from_toml()`: `[paths]` must exist; `runtime` and `deploy`
      are each `None` when absent. */
  function ReadPathsFromToml(doc: Value): (r: Result<(Option<string>, Option<string>)>)
    ensures r.Ok? <==> Child(doc, Key("paths")).Ok? && Child(doc, Key("paths")).value.Table?
    ensures Child(doc, Key("paths")).Raise? ==> r == Raise(Child(doc, Key("paths")).exc)
    ensures r.Ok? ==> r.value == (Lookup(doc, "paths", "runtime"), Lookup(doc, "paths", "deploy"))
  {
    match Child(doc, Key("paths"))
    case Raise(e) => Raise(e)
    case Ok(p) =>
      if p.Table? then Ok((Field(p.fields, "runtime"), Field(p.fields, "deploy"))) else Raise(TypeError)
  }
}
