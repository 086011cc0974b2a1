/** The result record every judge variant produces, and the abstract
    observation of one test case's processes that the verdict is computed
    from. Starting processes, the memory watchdog thread and the clock are
    not modelled: what they report is an input here. */
module Verdict {
  import opened Common

  datatype Status = AC | WA | RE | TLE | MLE

  /** The dictionary `{status, message, elapsed_time, return_code}`;
      None stands for Python's None. */
  datatype Result = Result(status: Status, message: string, elapsed: Option<real>, returnCode: Option<int>)

  /** A captured byte stream: text when it decodes as UTF-8. An empty
      byte string always decodes, so every `Undecodable` stream is non-empty. */
  datatype Stream = Text(text: string) | Undecodable(error: string)

  /** `bool(stream)` in Python: a byte string is truthy when non-empty. */
  predicate NonEmpty(s: Stream)
  {
    s != Text("")
  }

  /** What `Popen`, the watchdog and `communicate` report for one run of
      the submission. `memExceeded` is the watchdog's flag as the launcher
      reads it after `communicate` returns or times out; `error` is the
      text `type(e).__name__ + ": " + str(e)` of an exception raised while
      starting or talking to the process. */
  datatype Execution =
    | TimedOut(memExceeded: bool)
    | Exited(memExceeded: bool, returnCode: int, stdout: Stream, stderr: Stream, elapsed: real)
    | Crashed(error: string)

  /** What the throwaway `subprocess.run` that precedes the real run did:
      its result is discarded unless it raised (TimeoutExpired included). */
  datatype PreRun = PreRunCompleted | PreRunRaised(error: string)

  /** What running the checker on some input did: its captured stdout, or
      the exception (TimeoutExpired after one second, a launch failure). */
  datatype CheckerRun = CheckerExited(stdout: Stream) | CheckerRaised(error: string)

  /** Everything the environment reports for one test case: the pre-run
      (used by one variant only), the submission's run, and the checker's
      answer to whatever text it is fed on stdin. */
  datatype Trial = Trial(preRun: PreRun, submission: Execution, checker: string -> CheckerRun)

  // The five kinds of record `__run_cycle` / `run_cycle` return.

  function Accepted(elapsed: real, rc: int): Result
  {
    Result(AC, "Accepted", Some(elapsed), Some(rc))
  }

  function WrongAnswer(elapsed: real, rc: int): Result
  {
    Result(WA, "Wrong Answer", Some(elapsed), Some(rc))
  }

  /** The TLE record: the elapsed time is the configured limit, the exit code -1. */
  function TimeLimitExceeded(timeLimit: Option<real>): Result
  {
    Result(TLE, "Time Limit Exceeded", timeLimit, Some(-1))
  }

  function MemoryLimitExceeded(elapsed: real): Result
  {
    Result(MLE, "Memory Limit Exceeded", Some(elapsed), Some(-1))
  }

  /** A submission that failed: its decoded stderr is the message. */
  function RuntimeError(stderr: string, elapsed: real, rc: int): Result
  {
    Result(RE, "Runtime Error: " + stderr, Some(elapsed), Some(rc))
  }

  /** The outer `except Exception` handler: RE, zero time, no exit code. */
  function Crash(error: string): Result
  {
    Result(RE, "Runtime Error: " + error, Some(0.0), None)
  }

  /** The RE branch of every cascade: a non-zero exit code or any byte on
      stderr. Decoding stderr for the message can itself raise. */
  function Failed(rc: int, stderr: Stream, elapsed: real): (r: Result)
    ensures r.status == RE
    ensures stderr.Text? ==> r.returnCode == Some(rc) && r.message == "Runtime Error: " + stderr.text
    ensures stderr.Undecodable? ==> r == Crash(stderr.error)
  {
    match stderr
    case Text(e) => RuntimeError(e, elapsed, rc)
    case Undecodable(d) => Crash(d)
  }

  /** The checks every `__run_cycle` / `run_cycle` makes once the
      submission has run, in source order: a timeout gives TLE, then the
      watchdog's flag gives MLE, then a non-zero exit code or any stderr
      byte gives RE; only then is stdout decoded and `judge` given the
      text, the elapsed time and the exit code. An exception anywhere is
      the catch-all RE. */
  function Cascade(timeLimit: Option<real>, run: Execution, judge: (string, real, int) -> Result): (r: Result)
    ensures run.Crashed? ==> r == Crash(run.error)
    ensures run.TimedOut? ==> r == TimeLimitExceeded(timeLimit)
    ensures run.Exited? && run.memExceeded ==> r == MemoryLimitExceeded(run.elapsed)
    ensures run.Exited? && !run.memExceeded && (run.returnCode != 0 || NonEmpty(run.stderr)) ==>
      r == Failed(run.returnCode, run.stderr, run.elapsed)
    ensures Clean(run) && run.stdout.Undecodable? ==> r == Crash(run.stdout.error)
    ensures Clean(run) && run.stdout.Text? ==> r == judge(run.stdout.text, run.elapsed, 0)
  {
    match run
    case Crashed(e) => Crash(e)
    case TimedOut(_) => TimeLimitExceeded(timeLimit)
    case Exited(mem, rc, out, err, t) =>
      if mem then MemoryLimitExceeded(t)
      else if rc != 0 || NonEmpty(err) then Failed(rc, err, t)
      else match out
        case Undecodable(d) => Crash(d)
        case Text(o) => judge(o, t, rc)
  }

  /** A run that exited by itself with code 0, no stderr and no memory
      breach: the only runs whose output is judged. */
  predicate Clean(run: Execution)
  {
    run.Exited? && !run.memExceeded && run.returnCode == 0 && !NonEmpty(run.stderr)
  }

  /** The loop of every `run`: judges the cases in order, case k with its
      index and its own data, appending each result as it is computed. */
  method JudgeCases<T>(cases: seq<T>, verdict: (nat, T) -> Result) returns (results: seq<Result>)
    ensures |results| == |cases|
    ensures forall k :: 0 <= k < |cases| ==> results[k] == verdict(k, cases[k])
  {
    results := [];
    var i := 0;
    while i < |cases|
      invariant 0 <= i <= |cases|
      invariant |results| == i
      invariant forall k :: 0 <= k < i ==> results[k] == verdict(k, cases[k])
    {
      results := results + [verdict(i, cases[i])];
      i := i + 1;
    }
  }

  /** How many results have the given status. */
  function CountStatus(results: seq<Result>, s: Status): (n: nat)
    ensures n <= |results|
  {
    if results == [] then 0
    else CountStatus(results[..|results| - 1], s) + (if results[|results| - 1].status == s then 1 else 0)
  }

  /** Every result has exactly one of the five statuses. */
  lemma {:induction false} CountsPartition(results: seq<Result>)
    ensures CountStatus(results, AC) + CountStatus(results, WA) + CountStatus(results, RE)
          + CountStatus(results, TLE) + CountStatus(results, MLE) == |results|
  {
    if results != [] {
      CountsPartition(results[..|results| - 1]);
    }
  }
}
