/** The readiness waiters: poll a listing every five seconds until it shows
    the awaited state, until it shows a failure, or until the deadline.
    `Wait` is the whole run of such a loop as a function of the answers
    the cluster gives and of the starting time. */
module Readiness {

  import opened Base
  import opened PyStr
  import opened Seqs
  import opened Platform

  /** What one poll decides. */
  datatype Verdict = Retry | Done(v: string) | Fail(e: Exc)

  /** What is awaited: the pod whose listing line mentions a name reaching
      `Completed`, or a ClusterServingRuntime being listed. */
  datatype Condition = PodCompleted(metadataName: string) | RuntimeListed

  datatype Status = Ready(v: string) | Failed(e: Exc) | TimedOut

  /** How a wait ends, the index of the next command after it, and the clock. */
  datatype Outcome = Outcome(status: Status, next: nat, clock: int)

  const PollInterval: nat := 5

  function MentionsName(name: string): string -> bool {
    line => Contains(line, name)
  }

  /** The listing lines that mention the name, in listing order. */
  function MatchingLines(out: string, name: string): seq<string> {
    Filter(SplitLines(out), MentionsName(name))
  }

  /** The decision taken on one listing line: the pod name is its first
      whitespace token and the status its third. */
  function ClassifyLine(line: string): Verdict {
    var w := Words(line);
    if |w| < 3 then Fail(IndexError)
    else if w[2] == "Completed" then Done(w[0])
    else if w[2] == "Error" || w[2] == "CrashLoopBackOff" then
      Fail(RuntimeError(" Pod '" + w[0] + "' failed with status: " + w[2]))
    else Retry
  }

  /** One poll of the pod waiter: a failed listing or no matching line
      means polling again; otherwise the first matching line decides. */
  function PodVerdict(name: string, p: Proc): Verdict {
    match p
    case NotLaunched => Fail(OSError("kubectl"))
    case Exit(code, out, _) =>
      if code != 0 then Retry
      else
        var lines := MatchingLines(out, name);
        if lines == [] then Retry else ClassifyLine(lines[0])
  }

  /** One poll of the runtime waiter: the listing's standard output must
      mention `nim` or `llama`; a non-zero status is ignored. */
  function RuntimeVerdict(p: Proc): Verdict {
    match p
    case NotLaunched => Fail(OSError("kubectl"))
    case Exit(code, out, _) =>
      if code == 0 && (Contains(out, "nim") || Contains(out, "llama")) then Done("") else Retry
  }

  function Judge(c: Condition, p: Proc): Verdict {
    match c
    case PodCompleted(name) => PodVerdict(name, p)
    case RuntimeListed => RuntimeVerdict(p)
  }

  /** When the poll for command index `i` starts, in a run that began with
      command `n` at time `t` and has retried ever since. */
  function PollStart(t: int, n: nat, i: int): int {
    t + PollInterval * (i - n)
  }

  /** The loop run from command index `n` at time `t` with deadline `end`:
      a poll starts only while `t < end`; a `Retry` sleeps for the poll
      interval; any other verdict ends the loop at once. */
  function Wait(c: Condition, respond: nat -> Proc, n: nat, t: int, end: int): Outcome
    decreases end - t
  {
    if t >= end then Outcome(TimedOut, n, t)
    else
      match Judge(c, respond(n))
      case Retry => Wait(c, respond, n + 1, t + PollInterval, end)
      case Done(v) => Outcome(Ready(v), n + 1, t)
      case Fail(e) => Outcome(Failed(e), n + 1, t)
  }

  /** One poll before the deadline: a retry leaves the rest of the run to
      the next poll, any other verdict ends it. */
  lemma PollOnce(c: Condition, respond: nat -> Proc, n: nat, t: int, end: int)
    requires t < end
    ensures Judge(c, respond(n)).Retry? ==> Wait(c, respond, n, t, end) == Wait(c, respond, n + 1, t + PollInterval, end)
    ensures Judge(c, respond(n)).Done? ==> Wait(c, respond, n, t, end) == Outcome(Ready(Judge(c, respond(n)).v), n + 1, t)
    ensures Judge(c, respond(n)).Fail? ==> Wait(c, respond, n, t, end) == Outcome(Failed(Judge(c, respond(n)).e), n + 1, t)
  {
  }

  /** What every run of the loop satisfies: every poll started before the
      deadline; every poll but a deciding last one came back `Retry` and
      cost one interval; a timeout happens only at or after the deadline,
      and a success or failure is the verdict of the last poll. */
  lemma {:induction false} WaitSpec(c: Condition, respond: nat -> Proc, n: nat, t: int, end: int)
    ensures var w := Wait(c, respond, n, t, end);
      && w.next >= n
      && (forall i :: n <= i < w.next ==> PollStart(t, n, i) < end)
      && (w.status.TimedOut? ==>
            w.clock >= end && w.clock == t + PollInterval * (w.next - n)
            && forall i :: n <= i < w.next ==> Judge(c, respond(i)).Retry?)
      && (!w.status.TimedOut? ==>
            w.next > n && w.clock == t + PollInterval * (w.next - 1 - n)
            && (forall i :: n <= i < w.next - 1 ==> Judge(c, respond(i)).Retry?)
            && Judge(c, respond(w.next - 1)) == (if w.status.Ready? then Done(w.status.v) else Fail(w.status.e)))
    decreases end - t
  {
    if t < end && Judge(c, respond(n)).Retry? {
      WaitSpec(c, respond, n + 1, t + PollInterval, end);
      var w := Wait(c, respond, n, t, end);
      assert w == Wait(c, respond, n + 1, t + PollInterval, end);
      forall i | n <= i < w.next ensures PollStart(t, n, i) < end {
        if i > n {
          assert PollStart(t, n, i) == PollStart(t + PollInterval, n + 1, i);
        }
      }
      assert forall i :: n + 1 <= i < w.next - 1 ==> Judge(c, respond(i)).Retry?;
    }
  }

  /** The number of polls is bounded by the time available: at most one
      per started interval before the deadline. */
  lemma WaitPollBound(c: Condition, respond: nat -> Proc, n: nat, t: int, end: int)
    ensures var w := Wait(c, respond, n, t, end);
      w.next - n <= if t >= end then 0 else (end - t + PollInterval - 1) / PollInterval
  {
    WaitSpec(c, respond, n, t, end);
    var w := Wait(c, respond, n, t, end);
    if w.next > n {
      assert PollStart(t, n, w.next - 1) < end;
      assert PollInterval * (w.next - 1 - n) < end - t;
    }
  }

  /** Conversely, the first deciding verdict among the polls that fit before
      the deadline is the outcome. */
  lemma {:induction false} WaitFirstVerdict(c: Condition, respond: nat -> Proc, n: nat, t: int, end: int, k: nat)
    requires forall i :: n <= i < n + k ==> Judge(c, respond(i)).Retry?
    requires !Judge(c, respond(n + k)).Retry?
    requires t + PollInterval * k < end
    ensures Wait(c, respond, n, t, end) ==
      match Judge(c, respond(n + k))
      case Done(v) => Outcome(Ready(v), n + k + 1, t + PollInterval * k)
      case Fail(e) => Outcome(Failed(e), n + k + 1, t + PollInterval * k)
      case Retry => Outcome(TimedOut, n, t)
    decreases k
  {
    if k > 0 {
      assert Judge(c, respond(n)).Retry?;
      assert t + PollInterval * (k - 1) + PollInterval == t + PollInterval * k;
      WaitFirstVerdict(c, respond, n + 1, t + PollInterval, end, k - 1);
    }
  }

  /** When no poll ever decides, the loop times out, at or after the deadline. */
  lemma {:induction false} WaitAllRetry(c: Condition, respond: nat -> Proc, n: nat, t: int, end: int)
    requires forall i :: n <= i ==> Judge(c, respond(i)).Retry?
    ensures Wait(c, respond, n, t, end).status == TimedOut
    ensures Wait(c, respond, n, t, end).clock >= end
    decreases end - t
  {
    if t < end {
      WaitAllRetry(c, respond, n + 1, t + PollInterval, end);
    }
  }

  /** The first matching line decides: the pod poll reads the first listing
      line that mentions the name, if there is one. */
  lemma PodVerdictFirstLine(name: string, out: string, err: string)
    ensures var lines := SplitLines(out);
      var k := FirstIndex(lines, MentionsName(name));
      PodVerdict(name, Exit(0, out, err)) == if k < |lines| then ClassifyLine(lines[k]) else Retry
  {
    FilterHead(SplitLines(out), MentionsName(name));
  }

  /** A line laid out as kubectl prints it, tokens separated by spaces, is
      classified by its first and third tokens. */
  lemma ClassifyTokens(ws: seq<string>)
    requires forall k :: 0 <= k < |ws| ==> IsWord(ws[k])
    ensures |ws| < 3 ==> ClassifyLine(Join(ws, " ")) == Fail(IndexError)
    ensures |ws| >= 3 && ws[2] == "Completed" ==> ClassifyLine(Join(ws, " ")) == Done(ws[0])
    ensures |ws| >= 3 && ws[2] in {"Error", "CrashLoopBackOff"} ==> 
      ClassifyLine(Join(ws, " ")) == Fail(RuntimeError(" Pod '" + ws[0] + "' failed with status: " + ws[2]))
    ensures |ws| >= 3 && ws[2] !in {"Completed", "Error", "CrashLoopBackOff"} ==> ClassifyLine(Join(ws, " ")) == Retry
  {
    WordsOfJoin(ws);
  }

  /** The runtime poll succeeds exactly on a successful listing that
      mentions `nim` or `llama`. */
  lemma RuntimeVerdictDone(p: Proc)
    ensures RuntimeVerdict(p).Done? <==> p.Exit? && p.code == 0 && (Contains(p.out, "nim") || Contains(p.out, "llama"))
    ensures RuntimeVerdict(p).Fail? <==> p.NotLaunched?
  {
  }

  /** The polling loop both waiters run: issue `cmd`, judge its answer,
      stop on a decision, otherwise sleep one interval; give up once the
      clock reaches `timeout` seconds after the start. It returns how the
      wait ended, and issues and sleeps exactly as `Wait` says. */
  method Poll(h: Host, c: Condition, cmd: Command, timeout: nat) returns (s: Status)
    modifies h`calls, h`clock
    ensures var w := Wait(c, h.respond, |old(h.calls)|, old(h.clock), old(h.clock) + timeout);
      && w.next >= |old(h.calls)|
      && s == w.status
      && h.calls == old(h.calls) + Repeat(cmd, w.next - |old(h.calls)|)
      && h.clock == w.clock
  {
    var n0 := |h.calls|;
    var end := h.clock + timeout;
    ghost var whole := Wait(c, h.respond, n0, h.clock, end);
    while h.clock < end
      invariant |h.calls| >= n0 && h.calls == old(h.calls) + Repeat(cmd, |h.calls| - n0)
      invariant Wait(c, h.respond, |h.calls|, h.clock, end) == whole
      decreases end - h.clock
    {
      ghost var n := |h.calls|;
      var p := h.Run(cmd);
      PollOnce(c, h.respond, n, h.clock, end);
      RepeatSnoc(cmd, n - n0);
      match Judge(c, p)
      case Done(v) => return Ready(v);
      case Fail(e) => return Failed(e);
      case Retry => h.Sleep(PollInterval);
    }
    return TimedOut;
  }
}
