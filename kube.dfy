/** The create-or-update decisions shared by the stages: a `kubectl create`
    that fails because the object already exists is either skipped or
    followed by a `kubectl apply`; any other failure is an error. */
module Kube {

  import opened Base
  import opened PyStr
  import opened Platform

  /** The failure `kubectl create` reports for an object that exists. */
  predicate AlreadyExists(p: Proc) {
    p.Exit? && p.code != 0 && Contains(p.err, "AlreadyExists")
  }

  function CreateCmd(path: string, ns: string): Command {
    Kubectl(["create", "-f", path, "-n", ns])
  }

  function ApplyCmd(path: string, ns: string): Command {
    Kubectl(["apply", "-f", path, "-n", ns])
  }

  /** A create run without `check` whose failures are inspected: an
      existing object is skipped, any other failure raises
      `RuntimeError(msg)`. */
  function CreateOrSkip(p: Proc, msg: string): (r: Result<()>)
    ensures r.Ok? <==> p.Exit? && (p.code == 0 || AlreadyExists(p))
    ensures p.Exit? && r.Raise? ==> r.exc == RuntimeError(msg)
    ensures p.NotLaunched? ==> r.Raise? && r.exc.OSError?
  {
    match p
    case NotLaunched => Raise(OSError("kubectl"))
    case Exit(code, _, err) =>
      if code == 0 || Contains(err, "AlreadyExists") then Ok(()) else Raise(RuntimeError(msg))
  }

  /** A checked create, followed on `AlreadyExists` by a checked apply whose
      failure is re-raised; any other create failure is re-raised. */
  function CreateOrApplyResult(create: Proc, apply: Proc): (r: Result<()>)
    ensures r.Ok? <==> (create.Exit? && create.code == 0) || (AlreadyExists(create) && apply.Exit? && apply.code == 0)
    ensures create.Exit? && create.code != 0 && !AlreadyExists(create) ==> r == Raise(CalledProcessError(create.code, create.err))
    ensures AlreadyExists(create) && apply.Exit? && apply.code != 0 ==> r == Raise(CalledProcessError(apply.code, apply.err))
  {
    if AlreadyExists(create) then
      match Checked(apply)
      case Raise(e) => Raise(e)
      case Ok(_) => Ok(())
    else
      match Checked(create)
      case Raise(e) => Raise(e)
      case Ok(_) => Ok(())
  }

  /** Whether the apply is issued after the create. */
  function CreateOrApplyCalls(create: Proc, path: string, ns: string): seq<Command> {
    [CreateCmd(path, ns)] + if AlreadyExists(create) then [ApplyCmd(path, ns)] else []
  }

  /** Run the create, and the apply when the object already exists. */
  method CreateOrApply(h: Host, path: string, ns: string) returns (r: Result<()>)
    modifies h`calls
    ensures var n := |old(h.calls)|;
      && h.calls == old(h.calls) + CreateOrApplyCalls(h.respond(n), path, ns)
      && r == CreateOrApplyResult(h.respond(n), h.respond(n + 1))
  {
    var create := h.Run(CreateCmd(path, ns));
    if AlreadyExists(create) {
      var apply := h.Run(ApplyCmd(path, ns));
      r := CreateOrApplyResult(create, apply);
    } else {
      r := CreateOrApplyResult(create, h.respond(|h.calls|));
    }
  }

  function PodsCmd(ns: string): Command {
    Kubectl(["get", "pods", "-n", ns])
  }

  /** A create-or-apply followed by a listing that raises only when it
      cannot be started. */
  function DeployResult(create: Proc, apply: Proc, listing: Proc): (r: Result<()>)
    ensures r.Ok? <==> CreateOrApplyResult(create, apply).Ok? && listing.Exit?
    ensures CreateOrApplyResult(create, apply).Raise? ==> r == CreateOrApplyResult(create, apply)
  {
    var _ :- CreateOrApplyResult(create, apply);
    var _ :- Launched(listing);
    Ok(())
  }

  /** The listing is issued only when the create-or-apply succeeded. */
  function DeployCalls(create: Proc, apply: Proc, path: string, ns: string, list: Command): seq<Command> {
    CreateOrApplyCalls(create, path, ns) + if CreateOrApplyResult(create, apply).Ok? then [list] else []
  }

  /** Create or apply a manifest, then list what the namespace holds. */
  method CreateApplyAndList(h: Host, path: string, ns: string, list: Command) returns (r: Result<()>)
    modifies h`calls
    ensures var n := |old(h.calls)|;
      var create, apply := h.respond(n), h.respond(n + 1);
      && h.calls == old(h.calls) + DeployCalls(create, apply, path, ns, list)
      && r == DeployResult(create, apply, h.respond(n + |CreateOrApplyCalls(create, path, ns)|))
  {
    r := CreateOrApply(h, path, ns);
    if r.Raise? {
      return;
    }
    var listing := h.Run(list);
    var _ :- Launched(listing);
    r := Ok(());
  }

  /** A command of a straight-line script: whether it runs with `check`. */
  datatype Step = Step(cmd: Command, checked: bool)

  /** `subprocess.run` with or without `check`. */
  function Outcome(p: Proc, checked: bool): Result<Proc> {
    if checked then Checked(p) else Launched(p)
  }

  /** How many commands of a script run, and how it ends: the script stops
      at the first command whose outcome raises. */
  function ScriptRun(respond: nat -> Proc, n: nat, steps: seq<Step>): (r: (nat, Result<()>))
    ensures r.0 <= |steps|
    ensures r.1.Ok? <==> forall i :: 0 <= i < |steps| ==> Outcome(respond(n + i), steps[i].checked).Ok?
    ensures r.1.Ok? ==> r.0 == |steps|
    ensures r.1.Raise? ==> r.0 > 0 && Outcome(respond(n + r.0 - 1), steps[r.0 - 1].checked) == Raise(r.1.exc)
    ensures r.1.Raise? ==> forall i :: 0 <= i < r.0 - 1 ==> Outcome(respond(n + i), steps[i].checked).Ok?
    decreases |steps|
  {
    if steps == [] then (0, Ok(()))
    else
      match Outcome(respond(n), steps[0].checked)
      case Raise(e) => (1, Raise(e))
      case Ok(_) =>
        var rest := ScriptRun(respond, n + 1, steps[1..]);
        assert forall i :: 1 <= i < |steps| ==> steps[1..][i - 1] == steps[i];
        (1 + rest.0, rest.1)
  }

  function Commands(steps: seq<Step>): (cs: seq<Command>)
    ensures |cs| == |steps|
    ensures forall i :: 0 <= i < |steps| ==> cs[i] == steps[i].cmd
  {
    seq(|steps|, i requires 0 <= i < |steps| => steps[i].cmd)
  }

  /** Run the commands of a script in order until one raises. */
  method RunScript(h: Host, steps: seq<Step>) returns (r: Result<()>)
    modifies h`calls
    ensures var run := ScriptRun(h.respond, |old(h.calls)|, steps);
      h.calls == old(h.calls) + Commands(steps[..run.0]) && r == run.1
  {
    var n0 := |h.calls|;
    var i := 0;
    while i < |steps|
      invariant 0 <= i <= |steps| && n0 == |old(h.calls)| && |h.calls| == n0 + i
      invariant h.calls == old(h.calls) + Commands(steps[..i])
      invariant forall j :: 0 <= j < i ==> Outcome(h.respond(n0 + j), steps[j].checked).Ok?
      decreases |steps| - i
    {
      var p := h.Run(steps[i].cmd);
      CommandsSnoc(steps, i);
      var o := Outcome(p, steps[i].checked);
      if o.Raise? {
        ScriptStop(h.respond, n0, steps, i);
        return Raise(o.exc);
      }
      i := i + 1;
    }
    ScriptAll(h.respond, n0, steps);
    r := Ok(());
  }

  lemma CommandsSnoc(steps: seq<Step>, i: nat)
    requires i < |steps|
    ensures Commands(steps[..i + 1]) == Commands(steps[..i]) + [steps[i].cmd]
  {
  }

  /** A script whose every command succeeds runs to its end. */
  lemma ScriptAll(respond: nat -> Proc, n: nat, steps: seq<Step>)
    requires forall j :: 0 <= j < |steps| ==> Outcome(respond(n + j), steps[j].checked).Ok?
    ensures ScriptRun(respond, n, steps) == (|steps|, Ok(()))
    ensures steps[..|steps|] == steps
  {
    var run := ScriptRun(respond, n, steps);
    assert run.1.Ok?;
    var u: () := run.1.value;
    assert u == ();
  }

  /** The script stops at its first failing command. */
  lemma ScriptStop(respond: nat -> Proc, n: nat, steps: seq<Step>, i: nat)
    requires i < |steps| && Outcome(respond(n + i), steps[i].checked).Raise?
    requires forall j :: 0 <= j < i ==> Outcome(respond(n + j), steps[j].checked).Ok?
    ensures ScriptRun(respond, n, steps) == (i + 1, Raise(Outcome(respond(n + i), steps[i].checked).exc))
  {
    var run := ScriptRun(respond, n, steps);
    assert run.1.Raise?;
    assert Outcome(respond(n + (run.0 - 1)), steps[run.0 - 1].checked).Raise?;
    assert run.0 - 1 == i;
  }
}
