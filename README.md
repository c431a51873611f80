# GENAI-PERF-AUTOMATION in Dafny

A model of the driver of GENAI-PERF-AUTOMATION's benchmark scheduler. In
one run the scheduler:

- exports the API keys;
- sets up a namespace and its secrets;
- edits and applies the storage-claim manifest;
- starts a profiling pod and reads its logs to pick a model id;
- downloads that model;
- deploys a serving runtime and an inference service;
- finds the `genai-perf` pod, records the service's cluster IP, runs the
  benchmark script in that pod and copies the artifacts out.

Every step shells out to `kubectl`, edits a YAML/TOML file or reads the
configuration in `user_input.toml`.

## How the model is built

- **The outside world.** The process's view of it is one object,
  `Platform.Host`:
  - `calls` is the log of every external command started, in order;
  - `respond(n)` is what the `n`-th command returns: an exit code with its
    output and error text, or a failed start;
  - `files` holds the local files, each as its parsed document or as
    plain text;
  - `dirs` holds the directories;
  - `env` is the process environment;
  - `clock` holds simulated seconds that only `time.sleep` advances;
  - `canWrite` says whether a path can be opened for writing;
  - `search` is the regular-expression match used on log lines;
  - `cwd` is the working directory.
- **The configuration.** It is loaded once when `config_loader` is
  imported, and every module's `load_config()` returns the same
  dictionary. The model holds it as the single object
  `ConfigLoader.RunConfig`, so the model id recorded by the log step is
  what the download and runtime steps read next.
- **Documents.** YAML and TOML documents are `Docs.Value` trees. Python
  subscripting, `.get`, `in` and nested assignment are `Docs.Child`,
  `Docs.Get`, `Docs.Lookup`, `Docs.In` and `Docs.Assign`. They raise the
  same `KeyError`, `IndexError` and `TypeError` as Python does.
- **Exceptions.** Each step returns a `Base.Result`, whose `Raise`
  carries the Python exception (`Base.Exc`) that would escape.
  `sys.exit` is `SystemExit`.
- **Python built-ins the core relies on** are written out and proved
  about:
  - `str.split`, `str.split()`, `splitlines`, `strip`, `lower`,
    `replace`, `find` and `in` (`PyStr`);
  - `repr` of a string and `str` of a list of strings, as they appear in
    exception texts (`PyStr.Repr`, `PyStr.ListRepr`);
  - list comprehensions and `next(...)` (`Seqs`);
  - `list.index` (`TomlUpdater.IndexOf`);
  - `base64.b64encode` over UTF-8 (`Base64`);
  - `Path.stem` (`Pipeline.Stem`).
- **Loops.** Each loop of the source is a `while` loop in a method. The
  method is proved equal to a recursive specification function, and the
  lemmas are about that function:
  - the service-row scan and the profile-pod scan;
  - the `env` scan of the runtime manifest;
  - the readiness poll, which both waiters run (`Readiness.Poll`).
- **Command scripts.** The exec step's commands are straight-line code
  (`pod_manager.py:193-227`). `Kube.RunScript` generalises that sequence
  to a list of steps run until the first failure.
- **The two readiness pollers** share one specification,
  `Readiness.Wait`. It gives the outcome (ready, failed or timed out),
  the number of listings issued and the clock at the end.
- **The whole run** is `Pipeline.RunScheduler`. The stages it enters are
  always a prefix of a fixed order (`Pipeline.StageOrder`), and a
  successful run enters all of them. Which stage raised is stated only for
  the namespace lookup, the missing API keys and the `genai-perf` pod
  lookup (`Pipeline.Measure`).

## Behaviour worth knowing

- **A missing log match does not stop the run.**
  `fetch_profile_pod_logs_and_update_toml` catches every exception
  (`pod_manager.py:130-133`). When no log line matches, the run goes on
  with whatever `profile.selected_model_id` the configuration already
  held.
- **Three create steps never apply over an existing resource.**
  - `create_pod` and `create_download_job` skip an existing resource
    (`pod_manager.py:23-26`, `utils.py:37-39`).
  - `apply_runtime_yaml` runs its create without `check`
    (`runtime_manager.py:31-36`). Its `CalledProcessError` handler, which
    holds the apply fallback, can therefore never run.
- **Settings are read only at the step that needs them**, so a missing
  one can raise after earlier steps have changed the cluster. For
  example, `paths.nim_secrets_yaml_path` is read after both secrets have
  been created (`main.py:89`).
- **`wait_for_pod_completion` is never called** by `main`. It is
  modelled on its own (`PodManager.WaitForPodCompletion`).
- **The log step rewrites `user_input.toml`** with the whole in-memory
  configuration (`pod_manager.py:125-126`).
- **The runtime wait ignores failed listings.** A listing that exits
  non-zero is retried (`runtime_manager.py:64-65`); only a `kubectl` that
  cannot start raises. The deadline raises `TimeoutError`.

## Model

| member | source | states |
|---|---|---|
| ApiKeys.ExportedEnv | api_keys.py:10-27 | `KUBECONFIG` gets its default only when unset; each key is exported exactly when it is given; every other variable is kept; the key set is the old one plus exactly the exported names |
| ApiKeys.ExportEnvVars | api_keys.py:4-31 | returns the three `.get` lookups (`None` when absent) and leaves the environment equal to `ExportedEnv` of the old one; nothing is raised |
| ConfigLoader.RunConfig.constructor | config_loader.py:12 | the shared configuration holds the loaded document |
| ConfigLoader.ImportConfig | config_loader.py:5-12 | a missing `user_input.toml` in the working directory raises `FileNotFoundError`; otherwise the result is the loaded file |
| ConfigLoader.Import | config_loader.py:5-12 | importing raises exactly when `ImportConfig` does, and otherwise yields a fresh configuration object holding the loaded document |
| ConfigLoader.LoadConfig | config_loader.py:15-17 | `load_config()` returns the one shared object, never a copy |
| ConfigLoader.Namespace | pod_manager.py:12 | the namespace is `constants.namespace` when it is a string; a missing section or key raises what the lookup raises |
| ConfigLoader.LoadProfileListConfig | config_loader.py:20-28 | succeeds exactly when `profile_list.yaml_path` is given and names an existing file, and returns it; otherwise `FileNotFoundError` |
| ConfigLoader.LoadProfileConfig | config_loader.py:31-40 | succeeds exactly when `metadata_name` and `pattern` are both non-empty, and returns them; otherwise `ValueError` |
| ConfigLoader.LoadTomlConfig | config_loader.py:43-48 | succeeds exactly when the three indexed values are strings, and returns them in order; a missing download path raises its lookup error first |
| ConfigLoader.ReadPathsFromToml | config_loader.py:51-55 | succeeds exactly when `paths` is a table, and returns `runtime` and `deploy` (each `None` when absent); a missing `paths` raises its `KeyError` |
| Docs.Child | runtime_manager.py:13 | a subscript succeeds only on a table with a key, or on a list or string with a position |
| Docs.SetKeySucceeds | pvc_manager.py:31 | a nested assignment succeeds exactly when the parent path resolves to a mapping |
| Docs.GetAfterSetKey | pvc_manager.py:31 | after the assignment the new path reads back the assigned value |
| Docs.SetKeyFrame | pvc_manager.py:31 | every path that diverges from the assigned one reads as before |
| Docs.Field | api_keys.py:6-8 | `.get(key)` yields a string exactly when the key holds a string |
| Docs.Lookup | config_loader.py:22-23 | `.get(section, {}).get(key)` yields a string exactly when `doc[section][key]` holds one, and then that string |
| Docs.GetStr | config_loader.py:45-47 | direct indexing succeeds exactly when the path holds a string; otherwise the lookup's exception or `TypeError` |
| Docs.Assign | pvc_manager.py:31-32 | `x[p0]...[pn][k] = v` succeeds exactly on a mapping at the path (else the lookup's error or `TypeError`); the key then holds `v` and every diverging path is unchanged |
| Docs.AssignTwo | utils.py:15-17 | two keys set on one container both hold their values; every path that parts ways with both keys, the container's other keys included, reads as before |
| Docs.AssignBoth | pvc_manager.py:31-32 | two assignments on diverging paths: the first leaves the second's parent as it was, and afterwards both values hold while every other path is unchanged |
| Docs.In | pvc_manager.py:28 | `x in v` means key membership on a mapping, element membership on a list and substring on a string; it raises `TypeError` on any other value |
| PyStr.Decimal | pod_manager.py:67 | `str(n)` of a natural number is a non-empty digit string without a leading zero |
| PyStr.DecimalValue | pod_manager.py:67 | the digits of `str(n)` read back as `n` |
| PyStr.Repr | pvc_manager.py:22 | `repr(s)` is quoted at both ends, with a double quote only when `s` holds a single quote and no double quote |
| PyStr.ReprPlain | pvc_manager.py:22 | a string without backslashes, single quotes or control characters is written unchanged between single quotes |
| PyStr.ListReprPlain | pvc_manager.py:44-47 | `str()` of a non-empty list of such strings is the strings joined by `', '` between `['` and `']` |
| PyStr.Find | toml_updater.py:16 | the first occurrence of a separator, or none at all |
| PyStr.Split | toml_updater.py:16 | `s.split(p)` yields at least one piece, and no piece contains `p` |
| PyStr.JoinSplit | toml_updater.py:16 | joining the pieces with the separator gives back the string |
| PyStr.SplitJoin | toml_updater.py:16 | splitting a join of separator-free pieces gives back the pieces |
| PyStr.FirstPiece | pod_manager.py:121 | `split(":")[0]` is the text before the first colon |
| PyStr.SplitLines | pod_manager.py:115 | no line holds a newline |
| PyStr.LinesOfJoin | pod_manager.py:115 | `splitlines` of newline-joined lines (the last non-empty) gives back the lines |
| PyStr.Words | toml_updater.py:19 | `split()` yields non-empty, whitespace-free words |
| PyStr.WordsOfJoin | toml_updater.py:19 | `split()` of a space-joined word list gives back the words |
| PyStr.Strip | toml_updater.py:16 | `strip()` is an infix that removes only whitespace and has none at its ends |
| PyStr.StripNoop | toml_updater.py:16 | a string without outer whitespace is left unchanged by `strip()` |
| PyStr.Lower | pod_manager.py:93 | `lower()` keeps the length and lowers every character |
| PyStr.ReplaceFind | main.py:103 | `replace` keeps the text before the first occurrence, substitutes there and continues after it |
| PyStr.ReplaceIsJoinOfSplit | main.py:103-104 | `s.replace(p, r)` equals `r.join(s.split(p))` |
| PyStr.ReplaceAbsent | main.py:103-104 | a string without the placeholder is left unchanged |
| Seqs.First | pod_manager.py:174 | `next((x for x in s if f(x)), None)` is `None` exactly when no element satisfies `f`, and otherwise the first element that does |
| Seqs.Filter | pod_manager.py:115 | a list comprehension keeps only elements of the list that satisfy the condition |
| Seqs.FilterAppend | pod_manager.py:115 | filtering distributes over concatenation |
| Seqs.FilterHead | pod_manager.py:115-121 | the comprehension is non-empty exactly when some element matches, and its first element is the first match |
| Platform.Launched | main.py:37 | `subprocess.run` without `check` raises only when the command cannot start |
| Platform.Checked | toml_updater.py:9-15 | with `check=True`, a non-zero exit raises `CalledProcessError` with its code and error text |
| Platform.Ran | main.py:42 | a checked command whose result is discarded succeeds exactly when the command did |
| Platform.Repeat | pod_manager.py:41-44 | a repeated listing is that command `k` times |
| Platform.Host.Run | pod_manager.py:17-22 | a command is appended to the log and answered by the next response |
| Platform.Host.Sleep | pod_manager.py:47 | sleeping advances the clock by exactly its argument |
| Platform.Host.Load | pvc_manager.py:17-18 | `yaml.safe_load`/`toml.load` of a path succeeds exactly on a stored document; a missing path raises `FileNotFoundError` |
| Platform.Host.ReadText | main.py:99-100 | `f.read()` succeeds exactly on a stored text |
| Platform.Host.Dump | pvc_manager.py:36-37 | writing succeeds exactly when the path is writable, and then stores the document; otherwise `OSError` and nothing changes |
| Platform.Host.MakeDirs | utils.py:134 | `os.makedirs(exist_ok=True)` fails exactly when a file is in the way, and otherwise adds the directory |
| Kube.CreateOrSkip | pod_manager.py:23-29 | a create succeeds exactly when it exits 0 or reports `AlreadyExists`; any other exit is `RuntimeError` with the step's message |
| Kube.CreateOrApplyResult | pvc_manager.py:60-77 | create-or-apply succeeds exactly when the create succeeds, or it reports `AlreadyExists` and the apply succeeds; each failure re-raises its `CalledProcessError` |
| Kube.CreateOrApply | pvc_manager.py:60-77 | the commands issued are the create, plus the apply only after `AlreadyExists`, and the result is `CreateOrApplyResult` |
| Kube.DeployResult | pvc_manager.py:60-81 | the step succeeds exactly when create-or-apply does and the final unchecked listing starts |
| Kube.CreateApplyAndList | pvc_manager.py:60-81 | create-or-apply is followed by one listing, and the result is `DeployResult` |
| Kube.ScriptRun | pod_manager.py:193-213 | a script of `subprocess.run` calls succeeds exactly when every step's outcome does; otherwise it stops at the first failing step and raises that step's exception |
| Kube.Commands | pod_manager.py:193-201 | the commands of a script are its steps' commands, in order |
| Kube.RunScript | pod_manager.py:193-213 | the commands issued are the script up to and including the first failure, and the result is `ScriptRun`'s |
| Kube.ScriptStop | pod_manager.py:193-213 | when step `i` is the first to fail, the run stops after `i+1` commands with that step's exception |
| Kube.ScriptAll | pod_manager.py:193-213 | when every step succeeds, all of them run and the script succeeds |
| Readiness.PollOnce | pod_manager.py:40-65 | one poll: a retry verdict sleeps and polls again from the next command; a done or failed verdict ends the wait at once |
| Readiness.WaitSpec | pod_manager.py:40-67 | a wait polls only before the deadline. It times out at or after the deadline with every poll a retry. Otherwise it ends on the first non-retry verdict, with five seconds per earlier poll |
| Readiness.WaitPollBound | pod_manager.py:38-40 | the number of polls is at most the timeout divided by the poll interval, rounded up |
| Readiness.WaitFirstVerdict | pod_manager.py:59-63 | when the first non-retry verdict comes at poll `k` before the deadline, the wait ends there, ready or failed, with the clock at `t + 5k` |
| Readiness.WaitAllRetry | pod_manager.py:40-67 | a wait that never sees a terminal verdict times out, at or after the deadline |
| Readiness.PodVerdictFirstLine | pod_manager.py:50-56 | a successful listing is judged by the first line that mentions the pod name; no such line means keep waiting |
| Readiness.Poll | pod_manager.py:40-65 | the loop issues exactly the commands `Wait` counts, all of them the one listing, ends how `Wait` says and leaves the clock where `Wait` says |
| Readiness.ClassifyTokens | pod_manager.py:54-63 | a line with fewer than three tokens raises `IndexError`; the third token decides: `Completed` returns the first token, `Error`/`CrashLoopBackOff` raise `RuntimeError(" Pod '<name>' failed with status: <status>")`, anything else waits |
| Readiness.RuntimeVerdictDone | runtime_manager.py:56-65 | the runtime wait ends exactly when a successful listing mentions `nim` or `llama`; only a command that cannot start fails it |
| PodManager.CreatePod | pod_manager.py:15-30 | one `kubectl create`, with the result `CreateOrSkip` of its response and message `kubectl create failed` |
| PodManager.PodWaitResult | pod_manager.py:59-67 | the waiter returns the pod name exactly when the wait became ready, re-raises a failed verdict, and on a timeout raises `TimeoutError` with `PodTimeoutMessage` of the pod name and the timeout |
| PodManager.PodTimeoutMessageReads | pod_manager.py:67 | the message is ` Timeout: Pod '<name>' did not complete within <digits> seconds.`, where the digits read back as the timeout |
| PodManager.WaitForPodCompletion | pod_manager.py:34-67 | an invalid `[profile]` raises before any command; otherwise the result, the listings issued and the clock are those of `Wait` over `timeout` seconds |
| PodManager.PollPods | pod_manager.py:40-67 | the pod listings issued, the clock and the result are those of `Wait` for the named pod, read through `PodWaitResult` |
| PodManager.ProfilePodScan | pod_manager.py:89-95 | the scan ends at the first line whose first token contains `profile` in lower case, or raises `IndexError` at a blank line before it |
| PodManager.FindProfilePod | pod_manager.py:89-95 | the `for`/`break` loop computes `ProfilePod` |
| PodManager.BeforeColon | pod_manager.py:121 | `split(":")[0]` is a colon-free prefix of the line, ending at its first colon if it has one |
| PodManager.MatchIdOf | pod_manager.py:121 | `id:rest` with `id` free of colons and outer whitespace yields `id` |
| PodManager.MatchIdExample | pod_manager.py:121 | `"model-42: loaded"` yields `model-42` |
| PodManager.SelectedIdFirstMatch | pod_manager.py:114-121 | a selected id comes from a found profile pod and a successful log fetch, and is the id of the first log line the pattern matches |
| PodManager.FetchProfilePodLogsAndUpdateToml | pod_manager.py:71-133 | nothing is raised. The commands are the listing, then the log fetch only when a profile pod was found. When an id is selected, the shared configuration gets `profile.selected_model_id` and the whole configuration is written to `user_input.toml`. Otherwise configuration and files are unchanged |
| PodManager.FetchFromPods | pod_manager.py:81-128 | one pod listing, then the log fetch only when it names a profile pod; the id recorded is the one that fetch yields |
| PodManager.FromListing | pod_manager.py:89-128 | after the listing: nothing when it failed or names no profile pod, otherwise one log fetch for that pod and its id recorded |
| PodManager.FetchLogsAndRecord | pod_manager.py:103-128 | one log fetch; the id it yields, if any, is recorded as in the step above |
| PodManager.RecordSelectedId | pod_manager.py:123-126 | a successful assignment replaces the shared configuration and is written out when writable; a failed one changes nothing |
| PodManager.ExecScriptShape | pod_manager.py:190-227 | the exec script has two steps, a third (the login, in the module's namespace) only with a token, and a fourth (the unchecked `curl`) only with a cluster IP too |
| PodManager.ExecIntoGenaiPerfPod | pod_manager.py:164-232 | after the pod listing: the plan's exception, a quiet stop, or the script run up to its first failure |
| PvcManager.PvcPath | pvc_manager.py:16-22 | a string `pvc_yaml_path` is the path. A missing key ends the process with the read-failure message followed by `: ` and the key's `repr`. A `None`, list or table ends it with `open`'s `TypeError` text naming the type |
| PvcManager.PvcPathMissing | pvc_manager.py:17-22 | the missing key's exit message is ` Failed to read PVC YAML: 'pvc_yaml_path'` |
| PvcManager.Setting | pvc_manager.py:31-32 | `pvc_config[key]` succeeds exactly when the key is present; otherwise `KeyError` |
| PvcManager.PvcChecked | pvc_manager.py:16-29 | the loaded manifest passes exactly when it was read, is not empty and has `spec`; each failure ends the process with its own message, and `in` on a scalar raises `TypeError` |
| PvcManager.PvcAssignSpec | pvc_manager.py:31-32 | both assignments succeed exactly when both settings are given and both parents are mappings; then class and size hold their settings and all else is unchanged |
| PvcManager.ApplyOutcome | pvc_manager.py:42-47 | the checked apply succeeds exactly on exit 0. A positive exit status ends the process with the apply-failure message followed by `: ` and the `CalledProcessError` text, which names the argument list and the status. A failed start is not caught |
| PvcManager.UpdatePvcYaml | pvc_manager.py:15-47 | each failure before the write leaves files and commands untouched. After a successful edit the file is written. An unwritable file ends the process with the write-failure message; otherwise exactly one apply follows, judged by ApplyOutcome on the apply's own argument list |
| PvcManager.CreateAndCheckPvc | pvc_manager.py:52-81 | the claim path is read from the file on disk; a missing one raises `ValueError` before any command; otherwise create-or-apply and a claim listing |
| RuntimeManager.ProfileEnvIndex | runtime_manager.py:16-19 | the first `env` entry named `NIM_MODEL_PROFILE`; none exactly when every entry has another name; a raise comes from the first entry whose name cannot be read, all earlier ones passing |
| RuntimeManager.FindProfileEnv | runtime_manager.py:16-19 | the `for`/`break` loop computes `ProfileEnvIndex` |
| RuntimeManager.ImageStep | runtime_manager.py:13 | setting the image leaves every path that parts ways with it unchanged, `env` included |
| RuntimeManager.ProfileStep | runtime_manager.py:18 | entry `k`'s `value` holds the model id, and every path that parts ways with it (the image, the other entries, the entry's other keys) is unchanged |
| RuntimeManager.EditRuntimeSpec | runtime_manager.py:13-19 | after a successful edit the image is set and the first profile variable, if any, holds the model id; every path that parts ways with both is unchanged |
| RuntimeManager.EditRuntimeProfile | runtime_manager.py:16-19 | the profile variable found in `env` holds the model id afterwards |
| RuntimeManager.EditRuntimeNoProfile | runtime_manager.py:16-19 | without a profile variable only the image changes |
| RuntimeManager.UpdateRuntimeYaml | runtime_manager.py:7-22 | a failed load or edit raises and writes nothing; otherwise the edited manifest is written, or `OSError` when the file is not writable |
| RuntimeManager.ApplyRuntimeYaml | runtime_manager.py:28-47 | exactly one `kubectl create`; only a failed start raises |
| RuntimeManager.RuntimeWaitResult | runtime_manager.py:61-67 | the wait returns exactly when it became ready; a failed listing start re-raises its exception; a timeout is `TimeoutError` with the source's message |
| RuntimeManager.WaitForClusterServingRuntime | runtime_manager.py:51-67 | the listings issued, the result and the clock are those of `Wait` for a listed runtime over `timeout` seconds |
| RuntimeManager.DeployEdit | runtime_manager.py:72-76 | `spec.predictor.model.runtime` is set and nothing else changes; the edit succeeds exactly when the parent is a mapping |
| RuntimeManager.UpdateRuntimeInDeployYaml | runtime_manager.py:71-79 | a failed load or edit writes nothing; otherwise the edited manifest is written, or `OSError` |
| RuntimeManager.CreateOrApplyDeployYaml | runtime_manager.py:85-126 | without a path to an existing file nothing runs; otherwise create-or-apply and a pod listing whose failure is only printed |
| TomlUpdater.IndexOf | toml_updater.py:20-21 | `list.index(x)` is the first position holding `x`; `ValueError` exactly when there is none |
| TomlUpdater.IndexOfFirst | toml_updater.py:20-21 | the first position holding `x` is what `index` returns |
| TomlUpdater.ScanServicesFirst | toml_updater.py:24-28 | the row scan ends at the first row that is too short or names a target service, and yields its cluster-IP column |
| TomlUpdater.FindServiceIp | toml_updater.py:24-41 | the `for` loop computes `ScanServices` |
| TomlUpdater.ListingLines | toml_updater.py:16 | a listing with no outer whitespace strips and splits back into its lines |
| TomlUpdater.HeaderColumns | toml_updater.py:19-21 | a space-joined header locates `NAME` and `CLUSTER-IP` at their first positions |
| TomlUpdater.WithClusterIpSpec | toml_updater.py:32-35 | the update succeeds exactly on a table whose `values` is a table or absent. Then `values.cluster_ip` holds the IP, other top-level entries are unchanged, and an existing `values` keeps its other keys |
| TomlUpdater.ClusterIpUpdateRecords | toml_updater.py:27-38 | a rewrite happens only after a successful listing with a target service, and records that service's IP |
| TomlUpdater.ServiceIpExample | toml_updater.py:16-28 | the header `NAME CLUSTER-IP PORT(S)` and the row `llm-8b-bf16-tp1-pp1-private 10.0.0.5 8000/TCP` yield `10.0.0.5` |
| TomlUpdater.UpdateClusterIpInToml | toml_updater.py:6-46 | one listing; nothing is raised; the file is rewritten at most once, with the update `ClusterIpUpdate` describes |
| TomlUpdater.ListServiceIp | toml_updater.py:9-28 | one checked `kubectl get svc`; the IP is `ListedIp` of its response |
| TomlUpdater.WriteClusterIp | toml_updater.py:30-38 | the file is rewritten with the updated document exactly when it loads, the update succeeds and the path is writable; otherwise files are unchanged |
| Utils.DownloadEditSucceeds | utils.py:15-17 | the job edit succeeds exactly when the first container is a mapping; otherwise the lookup's error |
| Utils.DownloadEditSpec | utils.py:15-17 | the image and `download-to-cache --profile <id>` are set; every path that parts ways with both, the container's other keys included, is unchanged |
| Utils.UpdateDownloadYaml | utils.py:10-20 | a failed load or edit writes nothing; otherwise the edited manifest is written, or `OSError` |
| Utils.CreateDownloadJob | utils.py:27-44 | one `kubectl create`, then `CreateOrSkip` with `Job creation failed.` |
| Utils.RunDownloadFlow | utils.py:47-50 | an invalid `load_toml_config` raises before anything else; a failed edit or write stops before the create |
| Utils.GenaiPodYaml | utils.py:55-84 | the pod manifest path is read from the file on disk; a missing one raises `ValueError` before any command; otherwise create-or-apply and a pod listing |
| Utils.Interleave | utils.py:108-119 | flags and values alternate, each value right after its flag |
| Utils.InterleaveRoundTrip | utils.py:108-119 | the interleaved list splits back into its flags and its values |
| Utils.BenchValues | utils.py:111-118 | `config1[k]` for each key in argument order; `KeyError` exactly when one is missing |
| Utils.StringArgs | utils.py:122 | the arguments are accepted exactly when all are strings; otherwise `TypeError` |
| Utils.BenchCmdFlags | utils.py:108-119 | the benchmark command is `kubectl exec ... -- bash <script>` followed by the eight flags. Their values are the configured ones, the URL built from the IP and the timestamped export name |
| Utils.RunBenchScriptFromPod | utils.py:86-122 | a missing script or IP raises `ValueError` before any command; then `chmod`, and the benchmark only after `chmod` succeeds |
| Utils.CopySourceParts | utils.py:138-142 | the `kubectl cp` source splits at its first colon into the pod reference and the artifact path |
| Utils.CopyArtifactsFromPodUsingToml | utils.py:126-142 | both paths come from `user_input.toml` on disk; the destination directory is created, then one checked copy runs |
| Base64.Utf8Char | main.py:94 | a character encodes to one to four bytes, one exactly for ASCII |
| Base64.Utf8 | main.py:94 | `str.encode()` yields at least one byte per character, and a non-empty string a non-empty encoding |
| Base64.SymbolValue | main.py:94 | a character's 6-bit value, when it has one, is below 64 and maps back to that character |
| Base64.SymbolValueOfSymbol | main.py:94 | each base64 symbol decodes to its value |
| Base64.DecodeEncode | main.py:94-95 | decoding the base64 encoding gives back the bytes |
| Base64.EncodeLength | main.py:94 | the encoding has `4 * ceil(n / 3)` characters |
| Base64.EncodeAlphabet | main.py:94 | the encoding uses only the base64 alphabet and `=` |
| Base64.NoPlaceholderChars | main.py:94-104 | an encoded token contains no `$`, `{` or `}`, hence no `${...}` placeholder |
| Base64.EncodeTokenShape | main.py:94 | a non-empty token encodes to a non-empty multiple of four characters |
| Base64.EncodeExample | main.py:94 | `hf` encodes to `aGY=` |
| Pipeline.EnsureNamespace | main.py:37-44 | the namespace probe runs first; the namespace is created (checked) only when the probe fails |
| Pipeline.ReplaceSecret | main.py:49-66 | probe; a found secret is deleted (checked); then the secret is created (checked) |
| Pipeline.FilledTemplateSpec | main.py:103-104 | the template has every `${HF_TOKEN}` and then every `${NGC_API_KEY}` replaced by the encoded token, with the text around them kept. A template without placeholders is unchanged |
| Pipeline.SecretManifest | main.py:89-104 | the manifest is the filled template at `paths.nim_secrets_yaml_path`; a path that does not exist raises `FileNotFoundError` |
| Pipeline.ApplySecretTemplate | main.py:107-110 | one checked `kubectl apply -f -` fed the filled manifest, or the manifest's exception before any command |
| Pipeline.LabelNamespace | main.py:112-117 | an unchecked label listing, then the checked label |
| Pipeline.LastIndexOf | main.py:151 | the last position of a character, none exactly when it is absent |
| Pipeline.BaseName | main.py:149-151 | the final path component is a slash-free suffix, after the last slash |
| Pipeline.Stem | main.py:149-151 | `Path(p).stem` drops the suffix from the last dot when that dot is neither first nor last. Otherwise (the name ends in a dot, or has no dot after its first character) it is the whole name |
| Pipeline.SelectedIdReachesLaterStages | main.py:133-141 | the id recorded by the log step is what `load_toml_config` and the runtime step read next; the image, manifest paths and namespace read as before |
| Pipeline.RecordedIpReachesBench | main.py:165-173 | the cluster IP written by the IP step is what the benchmark's `values.cluster_ip` lookup reads |
| Pipeline.Prelude | main.py:26-117 | keys are exported first. A missing NGC or HF key raises before any command. Otherwise the namespace probe is the first command and all five prelude stages are reached on success |
| Pipeline.ClusterSetup | main.py:37-117 | the namespace probe is the first command; the stages are reached in order and all on success |
| Pipeline.StartProfilePod | main.py:125-129 | an invalid `[profile]` or profile-list path raises before any command; otherwise exactly one `kubectl create` of the listed manifest runs |
| Pipeline.ServeRuntime | main.py:137-145 | a missing runtime path raises before any command |
| Pipeline.Deploy | main.py:147-157 | a missing `[paths]` raises before any command or write |
| Pipeline.Provision | main.py:119-157 | the six stages from the claim manifest to the deployment are reached in order, all of them on success |
| Pipeline.ServeModel | main.py:133-157 | the log, download, runtime and deployment stages are reached in order |
| Pipeline.GenaiPodOf | main.py:158-164 | the lookup succeeds exactly when the listing succeeds and names a `genai-perf` pod; a failed listing re-raises its error, and no such pod is `ValueError` |
| Pipeline.GenaiPodFirst | main.py:158-162 | the pod taken starts with `genai-perf` and is the first listed name that does |
| Pipeline.LookUpGenaiPod | main.py:158-164 | one checked listing, with its result `GenaiPodOf` |
| Pipeline.Measure | main.py:158-174 | a failed pod lookup stops the run after the listing; otherwise the measurement stages are reached in order |
| Pipeline.MeasureIn | main.py:165-174 | the IP, claim, pod, exec, benchmark and copy stages are reached in order |
| Pipeline.RunScheduler | main.py:18-174 | a missing namespace raises before anything, and missing keys before any command. The stages entered are a prefix of their fixed order, and a successful run reaches all of them |

## Left out

- `delete_temp_pod_from_yaml` and `logger.py` (the redirection of output
  to a log file) are not part of this model; `main`'s final call to
  `delete_temp_pod_from_yaml` is therefore not modelled.
- Printing: every `print` is dropped. Errors that the source only prints
  appear as "nothing raised".
- The regular-expression engine and `re.IGNORECASE` are an oracle,
  `Host.search`. An invalid pattern, which Python would reject in
  `re.compile` inside the `try`, is not modelled.
- YAML and TOML parsing and serialisation: files are held already parsed
  (`Host.files`). Formatting, comments and key order are not modelled.
- Characters: Unicode whitespace and Unicode case mapping are not
  modelled. `PyStr.Lower` lowers ASCII only. `PyStr.IsSpace` knows the
  ASCII whitespace `str.isspace` accepts, `\x1c`-`\x1f` included.
- PyStr.SplitLines breaks lines at `\n` only. Python's `splitlines` also
  breaks at `\r`, `\r\n`, `\v`, `\f` and `\x1c`-`\x1e`.
- Configuration values are read as strings (`Docs.Field`). A present
  value of another type counts as absent where the source tests it for
  truthiness, so it takes the missing-value path:
  - ApiKeys.ExportEnvVars: a truthy non-string API key is not exported
    and nothing is raised, where `os.environ[...] = value` would raise
    `TypeError` (`api_keys.py:15-26`). Pipeline.Prelude then raises
    `ValueError` for `ngc_api_key` or `hugging_face_token`, and carries on
    for `ngc_token`.
  - Utils.GenaiPodYaml, PvcManager.CreateAndCheckPvc and
    Utils.RunBenchScriptFromPod: a truthy non-string
    `paths.genai_pod_yaml`, `paths.workdir_pvc` or `paths.shell_script`
    raises the missing path's `ValueError`, where `subprocess.run` would
    raise `TypeError` (`utils.py:59-64`, `pvc_manager.py:56-61`,
    `utils.py:93-105`).
  - Utils.RunBenchScriptFromPod: a truthy non-string `values.cluster_ip`
    raises `ValueError`, where the source formats it into the URL and runs
    the benchmark (`utils.py:93`, `utils.py:114`).

  Elsewhere a non-string value raises `TypeError` where the source hands
  it to a command, and also at places where the source would only store
  or format it:
  ConfigLoader.LoadTomlConfig (`config_loader.py:45-47`), the image and
  model id read by Pipeline.ServeRuntime (`main.py:140-141`), the model
  and pattern of PodManager.ExecPlan (`pod_manager.py:185-186`) and
  `pod_artifacts_path` in Utils.CopyArtifactsFromPodUsingToml
  (`utils.py:131`).
- Utils.BenchPlan: a non-string `export_file_name` raises `TypeError`,
  whereas the f-string would format it.
- Docs.Section: `.get(section, {})` on a section that is not a table
  reads as empty, where Python would raise `AttributeError` on the next
  `.get`.
- `AttributeError` is modelled as `TypeError` throughout.
- `stderr=subprocess.STDOUT` in the runtime wait is not modelled: only
  the listing's output is searched.
- Time passes only through `time.sleep`: command run time is not
  modelled, so a deadline is checked against the sleeps alone.
- `job_basename` in `run_download_flow` is computed and never used, so
  it is not modelled.
- The timestamp of `run_bench_script_from_pod` (`datetime.now()`) is a
  parameter.
- Pipeline.Stem: trailing and repeated slashes are not normalised as
  `pathlib` does.
- The module-level `NAMESPACE` lookups that run at import time are
  modelled once, at the start of `Pipeline.RunScheduler`. Inside
  `exec_into_genai_perf_pod` the module's namespace is the parameter
  `moduleNs`.
- `exec_into_genai_perf_pod`'s first read of `cluster.ip`
  (`pod_manager.py:165`) is never used, so it is not modelled.
- PvcManager.PvcChecked: the read-failure exit message leaves out the
  exception text that the source appends.
- PvcManager.PvcPath: an integer or boolean `pvc_yaml_path`, which `open`
  would take as a file descriptor, is modelled as a failed read whose exit
  message has no exception text.
- PvcManager.UpdatePvcYaml: the write-failure exit message leaves out the
  OS error text the source appends (`pvc_manager.py:40`). The model's
  `Host.canWrite` does not carry an error number or its message.
- PvcManager.ApplyOutcome: for a negative exit status (a command killed by
  a signal) the exit message leaves out the `CalledProcessError` text,
  which would name the signal.
- PyStr.Repr takes every non-ASCII character as printable. Python
  escapes the non-printable ones.
- `FileNotFoundError` carries the path rather than the full message.
- Pipeline.SetUpNamespace, Pipeline.CreateSecrets, Pipeline.ApplyTemplate,
  Pipeline.Label, Pipeline.EditClaim, Pipeline.ReadProfileLogs,
  Pipeline.DownloadModel, Pipeline.RecordClusterIp, Pipeline.ClaimWorkdir,
  Pipeline.StartGenaiPod, Pipeline.ExecGenaiPod, Pipeline.RunBenchmark and
  Pipeline.CopyArtifacts promise only that commands are appended to the
  log. Each stage's full effect is the contract of the method it calls.
- Pipeline.Provision, Pipeline.ServeModel, Pipeline.Measure,
  Pipeline.MeasureIn and Pipeline.RunScheduler state that the stages
  entered are a prefix of the fixed order, all of them on success. They do
  not state that a raise comes from the last stage entered (beyond the
  namespace, key and pod lookups), nor the whole command log, which is the
  concatenation of the stages' own contracts.
- Pipeline.StartProfilePod, Pipeline.ServeRuntime and Pipeline.Deploy
  state the configuration failures they check and the growth of the
  command log. The rest of each stage is the contract of the method it
  calls.
