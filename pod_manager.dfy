/** Pods of the pipeline: creating the profile pod, waiting for a pod to
    complete, picking the selected model id out of the profile pod's logs,
    and preparing the `genai-perf` pod for the benchmark. */
module PodManager {

  import opened Base
  import opened PyStr
  import opened Seqs
  import opened Docs
  import opened Platform
  import opened Kube
  import opened Readiness
  import opened ConfigLoader

  function ListPodsCmd(ns: string): Command {
    Kubectl(["get", "pods", "-n", ns, "--no-headers"])
  }

  function LogsCmd(pod: string, ns: string): Command {
    Kubectl(["logs", pod, "-n", ns])
  }

  function PodNamesCmd(ns: string): Command {
    Kubectl(["get", "pods", "-n", ns, "-o", "jsonpath={.items[*].metadata.name}"])
  }

  // ---------------------------------------------------------------------
  // create_pod

  /** `create_pod`: one `kubectl create`; an existing pod is skipped and any
      other failure raises `RuntimeError`. */
  method CreatePod(h: Host, yamlPath: string, ns: string) returns (r: Result<()>)
    modifies h`calls
    ensures h.calls == old(h.calls) + [CreateCmd(yamlPath, ns)]
    ensures r == CreateOrSkip(h.respond(|old(h.calls)|), "kubectl create failed")
  {
    var p := h.Run(CreateCmd(yamlPath, ns));
    r := CreateOrSkip(p, "kubectl create failed");
  }

  // ---------------------------------------------------------------------
  // wait_for_pod_completion

  const DefaultPodTimeout: nat := 300

  /** The message of the waiter's `TimeoutError`. */
  function PodTimeoutMessage(name: string, timeout: nat): string {
    " Timeout: Pod '" + name + "' did not complete within " + Decimal(timeout) + " seconds."
  }

  /** The timeout message names the pod, and the number in it reads back as
      the timeout. */
  lemma PodTimeoutMessageReads(name: string, timeout: nat)
    ensures var m := PodTimeoutMessage(name, timeout);
      var pre := " Timeout: Pod '" + name + "' did not complete within ";
      && StartsWith(m, pre) && EndsWith(m, " seconds.")
      && |pre| < |m| - |" seconds."|
      && var digits := m[|pre|..|m| - |" seconds."|];
        (forall i :: 0 <= i < |digits| ==> '0' <= digits[i] <= '9') && DigitsValue(digits) == timeout
  {
    var pre := " Timeout: Pod '" + name + "' did not complete within ";
    var m := PodTimeoutMessage(name, timeout);
    assert m == pre + Decimal(timeout) + " seconds.";
    assert m[..|pre|] == pre;
    assert m[|m| - |" seconds."|..] == " seconds.";
    assert m[|pre|..|m| - |" seconds."|] == Decimal(timeout);
    DecimalValue(timeout);
  }

  /** How the pod waiter ends, given how its loop ended. */
  function PodWaitResult(w: Outcome, name: string, timeout: nat): (r: Result<string>)
    ensures r.Ok? <==> w.status.Ready?
    ensures w.status.Ready? ==> r.value == w.status.v
    ensures w.status.Failed? ==> r == Raise(w.status.e)
    ensures w.status.TimedOut? ==> r == Raise(TimeoutError(PodTimeoutMessage(name, timeout)))
  {
    match w.status
    case Ready(v) => Ok(v)
    case Failed(e) => Raise(e)
    case TimedOut => Raise(TimeoutError(PodTimeoutMessage(name, timeout)))
  }

  /** `wait_for_pod_completion`: poll the pod listing every five seconds
      until the first line mentioning `metadata_name` shows `Completed`
      (the pod name is returned), `Error` or `CrashLoopBackOff` (raised at
      once), or until `timeout` seconds have passed (`TimeoutError`). */
  method WaitForPodCompletion(h: Host, doc: Value, ns: string, timeout: nat := DefaultPodTimeout) returns (r: Result<string>)
    modifies h`calls, h`clock
    ensures match LoadProfileConfig(doc)
      case Raise(e) => r == Raise(e) && h.calls == old(h.calls) && h.clock == old(h.clock)
      case Ok(mp) =>
        var w := Wait(PodCompleted(mp.0), h.respond, |old(h.calls)|, old(h.clock), old(h.clock) + timeout);
        && w.next >= |old(h.calls)|
        && r == PodWaitResult(w, mp.0, timeout)
        && h.calls == old(h.calls) + Repeat(ListPodsCmd(ns), w.next - |old(h.calls)|)
        && h.clock == w.clock
  {
    var prof := LoadProfileConfig(doc);
    if prof.Raise? {
      return prof.PropagateFailure();
    }
    r := PollPods(h, prof.value.0, ns, timeout);
  }

  /** The polling loop of `wait_for_pod_completion`, with its deadline
      `timeout` seconds from now: `Readiness.Poll` over the pod listing,
      then the pod name, the failure or the timeout error. */
  method PollPods(h: Host, name: string, ns: string, timeout: nat) returns (r: Result<string>)
    modifies h`calls, h`clock
    ensures var w := Wait(PodCompleted(name), h.respond, |old(h.calls)|, old(h.clock), old(h.clock) + timeout);
      && w.next >= |old(h.calls)|
      && r == PodWaitResult(w, name, timeout)
      && h.calls == old(h.calls) + Repeat(ListPodsCmd(ns), w.next - |old(h.calls)|)
      && h.clock == w.clock
  {
    var s := Poll(h, PodCompleted(name), ListPodsCmd(ns), timeout);
    match s
    case Ready(pod) => return Ok(pod);
    case Failed(e) => return Raise(e);
    case TimedOut => return Raise(TimeoutError(PodTimeoutMessage(name, timeout)));
  }

  // ---------------------------------------------------------------------
  // fetch_profile_pod_logs_and_update_toml

  /** A listing line that the profile-pod scan passes over: it has a first
      token, and that token, lowercased, does not contain `profile`. */
  predicate PassedOver(line: string) {
    var w := Words(line);
    w != [] && !Contains(Lower(w[0]), "profile")
  }

  predicate StopsScan(line: string) {
    !PassedOver(line)
  }

  /** The scan over listing lines: the first token of each line is its pod
      name (a line without one raises `IndexError`); the first name that
      contains `profile` in lower case is the profile pod. */
  function ProfilePod(lines: seq<string>): Result<Option<string>>
    decreases |lines|
  {
    if lines == [] then Ok(None)
    else
      var w := Words(lines[0]);
      if w == [] then Raise(IndexError)
      else if Contains(Lower(w[0]), "profile") then Ok(Some(w[0]))
      else ProfilePod(lines[1..])
  }

  /** The scan ends at the first line it does not pass over: no such line
      means no profile pod, a line without tokens raises, and otherwise that
      line names the profile pod. */
  lemma {:induction false} ProfilePodScan(lines: seq<string>)
    ensures var k := FirstIndex(lines, StopsScan);
      ProfilePod(lines) ==
        if k == |lines| then Ok(None)
        else if Words(lines[k]) == [] then Raise(IndexError)
        else Ok(Some(Words(lines[k])[0]))
    decreases |lines|
  {
    if lines != [] && PassedOver(lines[0]) {
      ProfilePodScan(lines[1..]);
      var k := FirstIndex(lines[1..], StopsScan);
      if k < |lines| - 1 {
        assert lines[1..][k] == lines[k + 1];
      }
    }
  }

  /** The `for`/`break` loop over the listing lines. */
  method FindProfilePod(lines: seq<string>) returns (r: Result<Option<string>>)
    ensures r == ProfilePod(lines)
  {
    var i := 0;
    while i < |lines|
      invariant 0 <= i <= |lines|
      invariant ProfilePod(lines) == ProfilePod(lines[i..])
      decreases |lines| - i
    {
      assert lines[i..][1..] == lines[i + 1..];
      var w := Words(lines[i]);
      if w == [] {
        return Raise(IndexError);
      }
      var podName := w[0];
      if Contains(Lower(podName), "profile") {
        return Ok(Some(podName));
      }
      i := i + 1;
    }
    assert lines[i..] == [];
    return Ok(None);
  }

  /** `line.split(":")[0]`: the text before the first colon. */
  function BeforeColon(line: string): (b: string)
    ensures |b| <= |line| && line[..|b|] == b
    ensures ':' !in b
    ensures |b| < |line| ==> line[|b|] == ':'
  {
    var ps := Split(line, ":");
    NotContainsChar(ps[0], ':');
    ps[0]
  }

  /** The id taken from a matching log line: the text before its first
      colon, with surrounding whitespace stripped. */
  function MatchId(line: string): string {
    Strip(BeforeColon(line))
  }

  /** A line `id:rest` with an `id` free of colons and of outer whitespace
      yields `id`. */
  lemma MatchIdOf(id: string, rest: string)
    requires ':' !in id
    requires id == [] || (!IsSpace(id[0]) && !IsSpace(id[|id| - 1]))
    ensures MatchId(id + ":" + rest) == id
  {
    FirstPiece(id, ':', rest);
    assert id + ":" + rest == id + [':'] + rest;
    StripNoop(id);
  }

  lemma MatchIdExample()
    ensures MatchId("model-42: loaded") == "model-42"
  {
    assert "model-42: loaded" == "model-42" + ":" + " loaded";
    MatchIdOf("model-42", " loaded");
  }

  function LogHit(search: (string, string) -> bool, pattern: string): string -> bool {
    line => search(pattern, line)
  }

  /** The log lines the pattern matches, in log order. */
  function LogMatches(out: string, search: (string, string) -> bool, pattern: string): seq<string> {
    Filter(SplitLines(out), LogHit(search, pattern))
  }

  /** The profile pod named by a checked listing, if the listing and the
      scan both succeed and find one. */
  function ProfilePodOf(listing: Proc): Option<string> {
    match Checked(listing)
    case Raise(_) => None
    case Ok(p) =>
      match ProfilePod(Split(Strip(p.out), "\n"))
      case Ok(Some(pod)) => Some(pod)
      case _ => None
  }

  /** The commands the step issues: none without a valid `[profile]`, then
      the listing, then the log fetch if a profile pod was found. */
  function FetchCalls(doc: Value, ns: string, listing: Proc): seq<Command> {
    if LoadProfileConfig(doc).Raise? then [] else PodCalls(ns, listing)
  }

  /** The commands once `[profile]` is read: the listing, then the log
      fetch only when a profile pod is listed. */
  function PodCalls(ns: string, listing: Proc): seq<Command> {
    [ListPodsCmd(ns)] + match ProfilePodOf(listing) case None => [] case Some(pod) => [LogsCmd(pod, ns)]
  }

  /** The id a log fetch yields: the id of the first line the pattern
      matches, if the fetch succeeded and a line matches. */
  function LogsId(logs: Proc, search: (string, string) -> bool, pattern: string): Option<string> {
    if logs.NotLaunched? || logs.code != 0 then None
    else
      var ms := LogMatches(logs.out, search, pattern);
      if ms == [] then None else Some(MatchId(ms[0]))
  }

  /** The id the step selects, if every stage up to the first log match
      succeeds. */
  function SelectedId(doc: Value, listing: Proc, logs: Proc, search: (string, string) -> bool): Option<string> {
    match LoadProfileConfig(doc)
    case Raise(_) => None
    case Ok(mp) => if ProfilePodOf(listing).None? then None else LogsId(logs, search, mp.1)
  }

  /** The selected id comes from the first log line the pattern matches. */
  lemma SelectedIdFirstMatch(doc: Value, listing: Proc, logs: Proc, search: (string, string) -> bool)
    requires SelectedId(doc, listing, logs, search).Some?
    ensures var pattern := LoadProfileConfig(doc).value.1;
      var lines := SplitLines(logs.out);
      var k := FirstIndex(lines, LogHit(search, pattern));
      && ProfilePodOf(listing).Some? && logs.Exit? && logs.code == 0
      && k < |lines| && search(pattern, lines[k])
      && (forall j :: 0 <= j < k ==> !search(pattern, lines[j]))
      && SelectedId(doc, listing, logs, search) == Some(MatchId(lines[k]))
  {
    var pattern := LoadProfileConfig(doc).value.1;
    FilterHead(SplitLines(logs.out), LogHit(search, pattern));
  }

  const SelectedIdKey := "selected_model_id"

  /** The configuration and the files once the step has selected `id`, or
      nothing: a successful `config["profile"]["selected_model_id"] = id`
      replaces the configuration, which is then written to `path` when that
      is writable; a failed assignment or no id changes neither. */
  function Recorded(doc: Value, files: map<string, File>, writable: bool, path: string, id: Option<string>): (Value, map<string, File>) {
    match id
    case None => (doc, files)
    case Some(i) =>
      match Assign(doc, [Key("profile")], SelectedIdKey, Str(i))
      case Raise(_) => (doc, files)
      case Ok(d) => (d, if writable then files[path := Doc(d)] else files)
  }

  /** `fetch_profile_pod_logs_and_update_toml`: every failure is caught and
      printed, so nothing is raised. On success the shared configuration
      gets `profile.selected_model_id`, and the whole configuration is
      written to `user_input.toml`; the in-memory change stays even when
      the write fails. */
  method FetchProfilePodLogsAndUpdateToml(h: Host, cfg: RunConfig, ns: string)
    modifies h`calls, h`files, cfg`doc
    ensures var n := |old(h.calls)|;
      var listing, logs := h.respond(n), h.respond(n + 1);
      var path := UserInputPath(h.cwd);
      && h.calls == old(h.calls) + FetchCalls(old(cfg.doc), ns, listing)
      && (cfg.doc, h.files) == Recorded(old(cfg.doc), old(h.files), h.canWrite(path), path,
           SelectedId(old(cfg.doc), listing, logs, h.search))
  {
    ghost var doc0, n := cfg.doc, |h.calls|;
    var prof := LoadProfileConfig(cfg.doc);
    if prof.Raise? {
      assert FetchCalls(doc0, ns, h.respond(n)) == [];
      assert SelectedId(doc0, h.respond(n), h.respond(n + 1), h.search).None?;
      return;
    }
    ghost var listing, logs := h.respond(n), h.respond(n + 1);
    assert SelectedId(doc0, listing, logs, h.search) == if ProfilePodOf(listing).None? then None else LogsId(logs, h.search, prof.value.1);
    FetchFromPods(h, cfg, ns, prof.value.1);
  }

  /** The part of the step after `[profile]` is read: the pod listing, and
      the log fetch and record only when a profile pod is listed. */
  method FetchFromPods(h: Host, cfg: RunConfig, ns: string, pattern: string)
    modifies h`calls, h`files, cfg`doc
    ensures var n := |old(h.calls)|;
      var found := ProfilePodOf(h.respond(n));
      var path := UserInputPath(h.cwd);
      && h.calls == old(h.calls) + PodCalls(ns, h.respond(n))
      && (cfg.doc, h.files) == Recorded(old(cfg.doc), old(h.files), h.canWrite(path), path,
           if found.None? then None else LogsId(h.respond(n + 1), h.search, pattern))
  {
    ghost var calls0 := h.calls;
    var listing := h.Run(ListPodsCmd(ns));
    ghost var calls1 := h.calls;
    FromListing(h, cfg, ns, listing, pattern);
    assert h.calls == calls0 + ([ListPodsCmd(ns)] + (h.calls[|calls1|..]));
  }

  /** The part of the step after the pod listing: the log fetch and record
      only when the listing names a profile pod. */
  method FromListing(h: Host, cfg: RunConfig, ns: string, listing: Proc, pattern: string)
    modifies h`calls, h`files, cfg`doc
    ensures var found := ProfilePodOf(listing);
      var path := UserInputPath(h.cwd);
      && h.calls == old(h.calls) + (match found case None => [] case Some(pod) => [LogsCmd(pod, ns)])
      && (cfg.doc, h.files) == Recorded(old(cfg.doc), old(h.files), h.canWrite(path), path,
           if found.None? then None else LogsId(h.respond(|old(h.calls)|), h.search, pattern))
  {
    if Checked(listing).Raise? {
      return;
    }
    var found := FindProfilePod(Split(Strip(listing.out), "\n"));
    if found.Raise? || found.value.None? {
      return;
    }
    FetchLogsAndRecord(h, cfg, ns, found.value.value, pattern);
  }

  /** The part of the step after the profile pod is found: the log fetch,
      the scan and the record. */
  method FetchLogsAndRecord(h: Host, cfg: RunConfig, ns: string, pod: string, pattern: string)
    modifies h`calls, h`files, cfg`doc
    ensures var path := UserInputPath(h.cwd);
      && h.calls == old(h.calls) + [LogsCmd(pod, ns)]
      && (cfg.doc, h.files) == Recorded(old(cfg.doc), old(h.files), h.canWrite(path), path,
           LogsId(h.respond(|old(h.calls)|), h.search, pattern))
  {
    var logs := h.Run(LogsCmd(pod, ns));
    var id := LogsId(logs, h.search, pattern);
    if id.None? {
      return;
    }
    RecordSelectedId(h, cfg, id.value);
  }

  /** The part of the step that records the id in the shared configuration
      and writes the whole configuration to `user_input.toml`. */
  method RecordSelectedId(h: Host, cfg: RunConfig, id: string)
    modifies h`files, cfg`doc
    ensures var path := UserInputPath(h.cwd);
      (cfg.doc, h.files) == Recorded(old(cfg.doc), old(h.files), h.canWrite(path), path, Some(id))
  {
    var updated := Assign(cfg.doc, [Key("profile")], SelectedIdKey, Str(id));
    if updated.Raise? {
      return;
    }
    cfg.doc := updated.value;
    var _ := h.Dump(UserInputPath(h.cwd), cfg.doc);
  }

  // ---------------------------------------------------------------------
  // exec_into_genai_perf_pod

  predicate IsGenaiPerf(pod: string) {
    StartsWith(pod, "genai-perf")
  }

  /** The first pod whose name starts with `genai-perf`, from the
      space-separated names a jsonpath listing prints. */
  function TargetPod(out: string): Option<string> {
    First(Words(Strip(out)), IsGenaiPerf)
  }

  /** `/workdir/{model}/{pattern}`. */
  function FullPath(model: string, pattern: string): string {
    "/workdir/" + model + "/" + pattern
  }

  function ExecCmd(ns: string, pod: string, script: string): Command {
    Kubectl(["exec", "-n", ns, pod, "--", "bash", "-c", script])
  }

  /** The commands run once the pod and `bench.sh` are found: create the
      directory, copy the script, and, when the token is configured, log in
      (in the module's namespace) and, when the cluster IP is configured in
      the in-memory configuration, query the model list. */
  function ExecScript(doc: Value, ns: string, moduleNs: string, pod: string, local: string, full: string): seq<Kube.Step> {
    var hf := Lookup(doc, "api_keys", "hugging_face_token");
    var ip := Lookup(doc, "values", "cluster_ip");
    var login := if !Given(hf) then [] else [Step(ExecCmd(moduleNs, pod, "huggingface-cli login --token " + hf.value), true)];
    var query := if !Given(hf) || !Given(ip) then [] else [Step(Cmd(["curl", "-X", "GET", "http://" + ip.value + "/v1/models"], ""), false)];
    [Step(ExecCmd(ns, pod, "mkdir -p " + full), true),
     Step(Kubectl(["cp", local, ns + "/" + pod + ":" + full + "/bench.sh"]), true)]
    + login + query
  }

  /** What the step does after the pod listing: raise, stop quietly, or run
      a script. */
  function ExecPlan(h: Host, doc: Value, ns: string, moduleNs: string, listing: Proc): Result<Option<seq<Kube.Step>>>
    reads h`files, h`dirs
  {
    var p :- Checked(listing);
    match TargetPod(p.out)
    case None => Ok(None)
    case Some(pod) =>
      var local := JoinPath(h.cwd, "bench.sh");
      if !h.Exists(local) then Ok(None)
      else
        var model :- GetStr(doc, [Key("final_exec"), Key("model")]);
        var pattern :- GetStr(doc, [Key("profile"), Key("pattern")]);
        Ok(Some(ExecScript(doc, ns, moduleNs, pod, local, FullPath(model, pattern))))
  }

  /** The script's shape: two steps, a third only with a token, a fourth
      only with a cluster IP as well; the login runs in the module-level
      namespace whatever namespace was passed, and only the final query
      runs without `check`. */
  lemma ExecScriptShape(doc: Value, ns: string, moduleNs: string, pod: string, local: string, full: string)
    ensures var s := ExecScript(doc, ns, moduleNs, pod, local, full);
      var hf := Lookup(doc, "api_keys", "hugging_face_token");
      var ip := Lookup(doc, "values", "cluster_ip");
      && |s| == (if !Given(hf) then 2 else if !Given(ip) then 3 else 4)
      && s[1].cmd.argv[3] == ns + "/" + pod + ":" + full + "/bench.sh"
      && (|s| >= 3 ==> s[2].cmd.argv[3] == moduleNs && s[2].checked)
      && (|s| == 4 ==> s[3].cmd.argv[3] == "http://" + ip.value + "/v1/models" && !s[3].checked)
      && s[0].checked && s[1].checked
  {
  }

  /** `exec_into_genai_perf_pod`. */
  method ExecIntoGenaiPerfPod(h: Host, cfg: RunConfig, ns: string, moduleNs: string) returns (r: Result<()>)
    modifies h`calls
    ensures var n := |old(h.calls)|;
      match ExecPlan(h, cfg.doc, ns, moduleNs, h.respond(n))
      case Raise(e) => r == Raise(e) && h.calls == old(h.calls) + [PodNamesCmd(ns)]
      case Ok(None) => r == Ok(()) && h.calls == old(h.calls) + [PodNamesCmd(ns)]
      case Ok(Some(s)) =>
        var run := ScriptRun(h.respond, n + 1, s);
        r == run.1 && h.calls == old(h.calls) + [PodNamesCmd(ns)] + Commands(s[..run.0])
  {
    var listing := h.Run(PodNamesCmd(ns));
    var plan := ExecPlan(h, cfg.doc, ns, moduleNs, listing);
    if plan.Raise? {
      return Raise(plan.exc);
    }
    if plan.value.None? {
      return Ok(());
    }
    r := RunScript(h, plan.value.value);
  }
}
