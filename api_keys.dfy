/** `export_env_vars`: copy the API keys of the configuration into the
    process environment. */
module ApiKeys {

  import opened Base
  import opened Docs
  import opened Platform

  const DefaultKubeconfig := "/etc/kubernetes/admin.conf"

  /** The names the export assigns because their key is given. */
  predicate Exported(k: string, ngc: Option<string>, token: Option<string>, hf: Option<string>) {
    (k == "NGC_API_KEY" && Given(ngc)) || (k == "NGC_TOKEN" && Given(token)) || (k == "HF_TOKEN" && Given(hf))
  }

  /** The environment after the export: `KUBECONFIG` gets its default only
      when unset; each key is exported only when it is given; nothing else
      changes. */
  function ExportedEnv(env: map<string, string>, ngc: Option<string>, token: Option<string>, hf: Option<string>): (e: map<string, string>)
    ensures "KUBECONFIG" in e && e["KUBECONFIG"] == (if "KUBECONFIG" in env then env["KUBECONFIG"] else DefaultKubeconfig)
    ensures Given(ngc) ==> "NGC_API_KEY" in e && e["NGC_API_KEY"] == ngc.value
    ensures Given(token) ==> "NGC_TOKEN" in e && e["NGC_TOKEN"] == token.value
    ensures Given(hf) ==> "HF_TOKEN" in e && e["HF_TOKEN"] == hf.value
    ensures forall k :: k in env && !Exported(k, ngc, token, hf) ==> k in e && e[k] == env[k]
    ensures e.Keys == env.Keys + {"KUBECONFIG"} + (if Given(ngc) then {"NGC_API_KEY"} else {})
      + (if Given(token) then {"NGC_TOKEN"} else {}) + (if Given(hf) then {"HF_TOKEN"} else {})
  {
    var e1 := if "KUBECONFIG" in env then env else env["KUBECONFIG" := DefaultKubeconfig];
    var e2 := if Given(ngc) then e1["NGC_API_KEY" := ngc.value] else e1;
    var e3 := if Given(token) then e2["NGC_TOKEN" := token.value] else e2;
    if Given(hf) then e3["HF_TOKEN" := hf.value] else e3
  }

  /** Export the keys found in `apiKeys` and return the three looked-up
      values, `None` for any that is absent. Nothing is raised. */
  method ExportEnvVars(h: Host, apiKeys: map<string, Value>) returns (ngc: Option<string>, token: Option<string>, hf: Option<string>)
    modifies h`env
    ensures ngc == Field(apiKeys, "ngc_api_key")
    ensures token == Field(apiKeys, "ngc_token")
    ensures hf == Field(apiKeys, "hugging_face_token")
    ensures h.env == ExportedEnv(old(h.env), ngc, token, hf)
  {
    ngc := Field(apiKeys, "ngc_api_key");
    token := Field(apiKeys, "ngc_token");
    hf := Field(apiKeys, "hugging_face_token");
    if "KUBECONFIG" !in h.env {
      h.env := h.env["KUBECONFIG" := DefaultKubeconfig];
    }
    if Given(ngc) {
      h.env := h.env["NGC_API_KEY" := ngc.value];
    }
    if Given(token) {
      h.env := h.env["NGC_TOKEN" := token.value];
    }
    if Given(hf) {
      h.env := h.env["HF_TOKEN" := hf.value];
    }
  }
}
