/** What the process sees of its surroundings: the external commands it runs
    (`kubectl`, `curl`) and what they answer, a simulated clock, the local
    files, `os.environ` and the working directory. */
module Platform {

  import opened Base
  import opened Docs
  import opened PyStr

  /** What `subprocess.run` reports: the exit status with captured output,
      or that the program could not be started (an `OSError`). */
  datatype Proc = Exit(code: int, out: string, err: string) | NotLaunched

  /** One external command: its argument vector and what it is fed on stdin. */
  datatype Command = Cmd(argv: seq<string>, stdin: string)

  /** A local file: a YAML/TOML file as its loaded document, or a plain-text
      template read as one string. */
  datatype File = Doc(v: Value) | Text(t: string)

  /** `subprocess.run(...)` without `check`: only a failed start raises. */
  function Launched(p: Proc): (r: Result<Proc>)
    ensures r.Ok? <==> p.Exit?
    ensures r.Ok? ==> r.value == p
  {
    if p.NotLaunched? then Raise(OSError("kubectl")) else Ok(p)
  }

  /** `subprocess.run(..., check=True)`: a non-zero status raises
      `CalledProcessError` carrying the status and stderr. */
  function Checked(p: Proc): (r: Result<Proc>)
    ensures r.Ok? <==> p.Exit? && p.code == 0
    ensures r.Ok? ==> r.value == p
    ensures p.Exit? && p.code != 0 ==> r == Raise(CalledProcessError(p.code, p.err))
  {
    match p
    case NotLaunched => Raise(OSError("kubectl"))
    case Exit(code, _, err) => if code != 0 then Raise(CalledProcessError(code, err)) else Ok(p)
  }

  /** `str(e)` of the `CalledProcessError` of a command that exited with a
      positive status: the argument vector as a Python list and the status. */
  function CalledProcessText(argv: seq<string>, code: nat): string {
    "Command '" + ListRepr(argv) + "' returned non-zero exit status " + Decimal(code) + "."
  }

  /** A command run for its effect only: its outcome without the result. */
  function Ran(p: Result<Proc>): (r: Result<()>)
    ensures r.Ok? <==> p.Ok?
    ensures p.Raise? ==> r == Raise(p.exc)
  {
    match p
    case Raise(e) => Raise(e)
    case Ok(_) => Ok(())
  }

  function Kubectl(args: seq<string>): Command {
    Cmd(["kubectl"] + args, "")
  }

  /** The same command issued `k` times. */
  function Repeat(c: Command, k: nat): (cs: seq<Command>)
    ensures |cs| == k && forall i :: 0 <= i < k ==> cs[i] == c
  {
    seq(k, _ => c)
  }

  /** Two commands issued one after the other. */
  lemma RanTwo(calls: seq<Command>, a: Command, b: Command)
    ensures calls + [a] + [b] == calls + [a, b]
  {
  }

  lemma RepeatSnoc(c: Command, k: nat)
    ensures Repeat(c, k + 1) == Repeat(c, k) + [c]
  {
  }

  /** `os.path.join(dir, name)` for a relative `name`. */
  function JoinPath(dir: string, name: string): string {
    if dir == [] || dir[|dir| - 1] == '/' then dir + name else dir + "/" + name
  }

  class Host {
    /** The answer the environment gives to the n-th external command. */
    const respond: nat -> Proc
    /** Whether a file can be opened for writing at a path. */
    const canWrite: string -> bool
    /** `re.search(pattern, line, re.IGNORECASE)` succeeds. */
    const search: (string, string) -> bool
    /** `os.getcwd()`. */
    const cwd: string

    /** Every external command started so far, in order. */
    var calls: seq<Command>
    /** Simulated seconds; only sleeping advances it. */
    var clock: int
    var files: map<string, File>
    var dirs: set<string>
    var env: map<string, string>

    constructor (respond: nat -> Proc, canWrite: string -> bool, search: (string, string) -> bool,
                 cwd: string, files: map<string, File>, dirs: set<string>, env: map<string, string>)
      ensures this.respond == respond && this.canWrite == canWrite && this.search == search
      ensures this.cwd == cwd && this.files == files && this.dirs == dirs && this.env == env
      ensures calls == [] && clock == 0
    {
      this.respond, this.canWrite, this.search, this.cwd := respond, canWrite, search, cwd;
      this.files, this.dirs, this.env := files, dirs, env;
      calls, clock := [], 0;
    }

    /** Start one external command and wait for it. */
    method Run(c: Command) returns (p: Proc)
      modifies this`calls
      ensures calls == old(calls) + [c]
      ensures p == respond(|old(calls)|)
    {
      p := respond(|calls|);
      calls := calls + [c];
    }

    /** `time.sleep(s)`. */
    method Sleep(s: nat)
      modifies this`clock
      ensures clock == old(clock) + s
    {
      clock := clock + s;
    }

    predicate IsFile(path: string)
      reads this`files
    {
      path in files
    }

    /** `os.path.exists(path)`: a file or a directory. */
    predicate Exists(path: string)
      reads this`files, this`dirs
    {
      path in files || path in dirs
    }

    /** `yaml.safe_load(open(path))` or `toml.load(path)`. */
    function Load(path: string): (r: Result<Value>)
      reads this`files, this`dirs
      ensures r.Ok? <==> path in files && files[path].Doc?
      ensures r.Ok? ==> r.value == files[path].v
      ensures path !in files && path !in dirs ==> r == Raise(FileNotFoundError(path))
    {
      if path in files then
        match files[path]
        case Doc(v) => Ok(v)
        case Text(_) => Raise(OSError(path))
      else if path in dirs then Raise(OSError(path))
      else Raise(FileNotFoundError(path))
    }

    /** `open(path).read()` of a plain-text file. */
    function ReadText(path: string): (r: Result<string>)
      reads this`files, this`dirs
      ensures r.Ok? <==> path in files && files[path].Text?
      ensures r.Ok? ==> r.value == files[path].t
    {
      if path in files && files[path].Text? then Ok(files[path].t)
      else if path in files || path in dirs then Raise(OSError(path))
      else Raise(FileNotFoundError(path))
    }

    /** `yaml.safe_dump(v, open(path, "w"))` or `toml.dump(v, ...)`. */
    method Dump(path: string, v: Value) returns (r: Result<()>)
      modifies this`files
      ensures r.Ok? <==> canWrite(path)
      ensures r.Raise? ==> r.exc == OSError(path)
      ensures files == if canWrite(path) then old(files)[path := Doc(v)] else old(files)
    {
      if canWrite(path) {
        files := files[path := Doc(v)];
        r := Ok(());
      } else {
        r := Raise(OSError(path));
      }
    }

    /** `os.makedirs(path, exist_ok=True)`: fails only where a file is in the way. */
    method MakeDirs(path: string) returns (r: Result<()>)
      modifies this`dirs
      ensures r.Ok? <==> path !in files
      ensures r.Raise? ==> r.exc == OSError(path)
      ensures dirs == if path in files then old(dirs) else old(dirs) + {path}
    {
      if path in files {
        r := Raise(OSError(path));
      } else {
        dirs := dirs + {path};
        r := Ok(());
      }
    }
  }
}
