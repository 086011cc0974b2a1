/** The judge in src/openjudge/code_judge.py: `normalize_output`, the verdict
    of one test case for the comparison judge (`TC_Judge`) and the checker
    judge (`Checker_Judge`), the two judge objects and the result tally of
    `print_results`. */
module CurrentJudge {
  import opened Common
  import opened Text
  import opened Naming
  import opened Verdict
  import opened Loading

  // ---------------------------------------------------------------------
  // Output normalisation

  /** `s.replace('\r\n', '\n').rstrip('\n').rstrip('\r')`. */
  function NormalizeOutput(s: string): (r: string)
    ensures |r| <= |s|
    ensures r == [] || r[|r| - 1] != '\r'
  {
    RStripChar(RStripChar(ReplaceCrLf(s), '\n'), '\r')
  }

  /** On text without carriage returns, writing every line feed as CRLF does
      not change the normalised form, which is the text without its trailing
      line feeds. */
  lemma NormalizeOutputLineEndings(t: string)
    requires '\r' !in t
    ensures NormalizeOutput(WithCrLf(t)) == RStripChar(t, '\n')
    ensures NormalizeOutput(t) == RStripChar(t, '\n')
  {
    ReplaceCrLfUndoesWithCrLf(t);
    ReplaceCrLfWithoutCr(t);
    var u := RStripChar(t, '\n');
    assert '\r' !in u by {
      assert u == t[..|u|];
    }
  }

  /** The normaliser is not idempotent: one pass can create a CRLF pair
      that a second pass then replaces. */
  lemma NormalizeOutputNotIdempotent()
    ensures NormalizeOutput("a\r\r\nb") == "a\r\nb"
    ensures NormalizeOutput(NormalizeOutput("a\r\r\nb")) == "a\nb"
  {
    var s := "a\r\r\nb";
    assert s[1..][1..][2..] == "b";
    assert ReplaceCrLf("b") == "b";
    assert ReplaceCrLf(s[1..][1..]) == "\nb";
    assert ReplaceCrLf(s) == "a\r\nb";
    var t := "a\r\nb";
    assert t[1..][2..] == "b";
    assert ReplaceCrLf(t[1..]) == "\nb";
    assert ReplaceCrLf(t) == "a\nb";
  }

  /** The comparison of `TC_Judge.__run_cycle`: both texts stripped, then normalised. */
  predicate OutputsMatch(actual: string, expected: string)
    ensures Strip(actual) == Strip(expected) ==> OutputsMatch(actual, expected)
  {
    NormalizeOutput(Strip(actual)) == NormalizeOutput(Strip(expected))
  }

  /** On a stripped text without carriage returns the normaliser is the
      identity. */
  lemma NormalizeOutputFixesStrippedLfText(s: string)
    requires '\r' !in s
    ensures NormalizeOutput(Strip(s)) == Strip(s)
  {
    var t := Strip(s);
    assert '\r' !in t;
    ReplaceCrLfWithoutCr(t);
    assert RStripChar(t, '\n') == t;
  }

  /** On texts without carriage returns the comparison accepts exactly the
      outputs equal to the expected one up to surrounding whitespace. */
  lemma MatchOnLfText(actual: string, expected: string)
    requires '\r' !in actual && '\r' !in expected
    ensures OutputsMatch(actual, expected) <==> Strip(actual) == Strip(expected)
  {
    NormalizeOutputFixesStrippedLfText(actual);
    NormalizeOutputFixesStrippedLfText(expected);
  }

  /** A submission that prints the expected text with CRLF line endings is
      accepted. */
  lemma {:induction false} CrLfOutputMatches(t: string)
    requires '\r' !in t
    ensures OutputsMatch(WithCrLf(t), t)
  {
    StripWithCrLf(t);
    var u := Strip(t);
    assert '\r' !in u;
    NormalizeOutputLineEndings(u);
  }

  // ---------------------------------------------------------------------
  // One test case

  /** The AC/WA decision of `TC_Judge`. */
  function Compare(expected: string, out: string, elapsed: real, rc: int): (r: Result)
    ensures r.status == AC <==> OutputsMatch(out, expected)
    ensures r.status == WA <==> !OutputsMatch(out, expected)
    ensures r.elapsed == Some(elapsed) && r.returnCode == Some(rc)
  {
    if OutputsMatch(out, expected) then Accepted(elapsed, rc) else WrongAnswer(elapsed, rc)
  }

  /** `TC_Judge.__run_cycle` as evidently intended, without the throwaway
      pre-run: TLE, then MLE, then RE, then AC exactly when the outputs
      match. */
  function TcCascade(timeLimit: Option<real>, run: Execution, expected: string): (r: Result)
    ensures run.TimedOut? ==> r.status == TLE && r.elapsed == timeLimit && r.returnCode == Some(-1)
    ensures run.Exited? && run.memExceeded ==> r.status == MLE && r.returnCode == Some(-1)
    ensures run.Exited? && !run.memExceeded && (run.returnCode != 0 || NonEmpty(run.stderr)) ==> r.status == RE
    ensures run.Exited? && !run.memExceeded && run.stderr.Text? && (run.returnCode != 0 || NonEmpty(run.stderr)) ==>
      r.returnCode == Some(run.returnCode)
    ensures run.Crashed? ==> r == Crash(run.error)
    ensures Clean(run) && run.stdout.Text? ==>
      (r.status == AC <==> OutputsMatch(run.stdout.text, expected)) && r.status in {AC, WA}
  {
    Cascade(timeLimit, run, (out, t, rc) => Compare(expected, out, t, rc))
  }

  /** `TC_Judge.__run_cycle` as written: the pre-run `subprocess.run` sits
      outside the inner timeout handler, so when it raises (TimeoutExpired
      included) the case ends in the catch-all RE, whatever the real run
      would have shown. */
  function TcCycle(timeLimit: Option<real>, trial: Trial, expected: string): (r: Result)
    ensures trial.preRun.PreRunRaised? ==> r == Crash(trial.preRun.error)
    ensures trial.preRun.PreRunCompleted? ==> r == TcCascade(timeLimit, trial.submission, expected)
  {
    match trial.preRun
    case PreRunRaised(e) => Crash(e)
    case PreRunCompleted => TcCascade(timeLimit, trial.submission, expected)
  }

  /** A submission slow enough to time out in the pre-run ends as RE with no
      exit code, where the cascade alone would report TLE. */
  lemma PreRunTimeoutHidesTle(timeLimit: Option<real>, expected: string, checker: string -> CheckerRun)
    ensures var trial := Trial(PreRunRaised("TimeoutExpired"), TimedOut(false), checker);
      && TcCycle(timeLimit, trial, expected).status == RE
      && TcCycle(timeLimit, trial, expected).returnCode == None
      && TcCascade(timeLimit, trial.submission, expected).status == TLE
  {
  }

  /** What `Checker_Judge.run_cycle` passes to the checker: the submission's
      output, stripped and normalised. */
  function CheckerPayload(out: string): (p: string)
    ensures |p| <= |out|
  {
    NormalizeOutput(Strip(out))
  }

  /** The checker's verdict: AC exactly when its normalised stdout is "1". */
  function CheckerVerdict(c: CheckerRun, elapsed: real, rc: int): (r: Result)
    ensures r.status == AC <==> c.CheckerExited? && c.stdout.Text? && NormalizeOutput(c.stdout.text) == "1"
    ensures r.status == WA <==> c.CheckerExited? && c.stdout.Text? && NormalizeOutput(c.stdout.text) != "1"
    ensures r.status == RE <==> !(c.CheckerExited? && c.stdout.Text?)
    ensures r.status == RE ==> r.returnCode == None
  {
    match c
    case CheckerRaised(e) => Crash(e)
    case CheckerExited(Undecodable(d)) => Crash(d)
    case CheckerExited(Text(o)) =>
      if NormalizeOutput(o) == "1" then Accepted(elapsed, rc) else WrongAnswer(elapsed, rc)
  }

  /** The exception `subprocess.run(..., input=<str>)` raises when the pipe
      is in binary mode and the input is not empty. */
  const StrInputError: string := "TypeError: memoryview: a bytes-like object is required, not 'str'"

  /** `Checker_Judge.run_cycle` as evidently intended: no pre-run, and the
      payload handed to the checker as bytes. The checker is consulted only
      for a run that exited cleanly. */
  function CheckerCascade(timeLimit: Option<real>, run: Execution, checker: string -> CheckerRun): (r: Result)
    ensures run.TimedOut? ==> r == TimeLimitExceeded(timeLimit)
    ensures run.Exited? && run.memExceeded ==> r == MemoryLimitExceeded(run.elapsed)
    ensures !Clean(run) ==> r.status in {RE, TLE, MLE}
    ensures Clean(run) && run.stdout.Text? ==>
      r == CheckerVerdict(checker(CheckerPayload(run.stdout.text)), run.elapsed, 0)
  {
    Cascade(timeLimit, run, (out, t, rc) => CheckerVerdict(checker(CheckerPayload(out)), t, rc))
  }

  /** The step after decoding stdout as written: the payload is a `str`
      given to a pipe in binary mode, so the call raises TypeError unless
      the payload is empty (an empty input is never written). */
  function CheckerStepAsWritten(checker: string -> CheckerRun, out: string, elapsed: real, rc: int): (r: Result)
    ensures r.status in {AC, WA} ==> CheckerPayload(out) == "" && r == CheckerVerdict(checker(""), elapsed, rc)
    ensures CheckerPayload(out) != "" ==> r.status == RE && r.returnCode == None
  {
    if CheckerPayload(out) != "" then Crash(StrInputError)
    else CheckerVerdict(checker(""), elapsed, rc)
  }

  /** `Checker_Judge.run_cycle` as written: the pre-run, then the cascade
      with the checker step above. */
  function CheckerCycle(timeLimit: Option<real>, trial: Trial): (r: Result)
    ensures trial.preRun.PreRunRaised? ==> r == Crash(trial.preRun.error)
    ensures trial.preRun.PreRunCompleted? && (!Clean(trial.submission) || trial.submission.stdout.Undecodable?) ==>
      r == CheckerCascade(timeLimit, trial.submission, trial.checker)
    ensures trial.preRun.PreRunCompleted? && Clean(trial.submission) && trial.submission.stdout.Text? ==>
      var out := trial.submission.stdout.text;
      && (CheckerPayload(out) != "" ==> r == Crash(StrInputError))
      && (CheckerPayload(out) == "" ==> r == CheckerCascade(timeLimit, trial.submission, trial.checker))
  {
    match trial.preRun
    case PreRunRaised(e) => Crash(e)
    case PreRunCompleted =>
      Cascade(timeLimit, trial.submission, (out, t, rc) => CheckerStepAsWritten(trial.checker, out, t, rc))
  }

  // RStripLine through NormalizeOutputOne are evaluation facts about the
  // sample strings of CheckerRejectsEveryOutput and serve only that lemma.

  /** `"42\n".rstrip()` is "42". */
  lemma RStripLine()
    ensures RStrip("42\n") == "42"
  {
    assert "42\n" == "42" + ['\n'];
    RStripSpaceTail("42", '\n');
    assert "42" == "4" + ['2'];
    RStripKeepsTail("4", '2');
  }

  lemma LStripDigits()
    ensures LStrip("42") == "42"
  {
  }

  lemma StripLine()
    ensures Strip("42\n") == "42"
  {
    RStripLine();
    LStripDigits();
  }

  lemma NoCrInLine()
    ensures '\r' !in "42\n"
  {
    assert "42\n"[2] == '\n';
  }

  /** The payload of the output "42\n" is "42". */
  lemma PayloadOfLine()
    ensures CheckerPayload("42\n") == "42"
  {
    StripLine();
    NoCrInLine();
    NormalizeOutputFixesStrippedLfText("42\n");
  }

  /** A checker that prints "1" accepts. */
  lemma NormalizeOutputOne()
    ensures NormalizeOutput("1") == "1"
  {
    ReplaceCrLfWithoutCr("1");
  }

  /** As written, a submission that prints anything besides whitespace is
      never accepted: a checker that accepts everything still yields RE. */
  lemma CheckerRejectsEveryOutput(timeLimit: Option<real>, elapsed: real)
    ensures var accept := (input: string) => CheckerExited(Text("1"));
      var trial := Trial(PreRunCompleted, Exited(false, 0, Text("42\n"), Text(""), elapsed), accept);
      && CheckerCycle(timeLimit, trial).status == RE
      && CheckerCascade(timeLimit, trial.submission, trial.checker).status == AC
  {
    var accept := (input: string) => CheckerExited(Text("1"));
    var run := Exited(false, 0, Text("42\n"), Text(""), elapsed);
    assert Clean(run);
    PayloadOfLine();
    NormalizeOutputOne();
    assert CheckerCascade(timeLimit, run, accept) == CheckerVerdict(CheckerExited(Text("1")), elapsed, 0);
  }

  // ---------------------------------------------------------------------
  // The judge objects

  /** `TC_Judge`: test inputs and expected outputs, limits and results. */
  class TcJudge {
    var tcIn: seq<string>
    var tcOut: seq<string>
    var codePath: Option<string>
    var timeLimit: Option<real>
    var memoryLimit: Option<real>
    var results: seq<Result>

    constructor ()
      ensures tcIn == [] && tcOut == [] && codePath == None && results == []
      ensures timeLimit == Some(2.0) && memoryLimit == Some(256.0)
    {
      tcIn, tcOut, codePath, results := [], [], None, [];
      timeLimit, memoryLimit := Some(2.0), Some(256.0);
    }

    /** `load_TC`: validates its arguments before reading anything, then
        appends case 1..n's input and expected output in order, stopping at
        the first file that cannot be read. Earlier entries are kept. */
    method LoadTC(fs: FileSystem, tcPath: Option<string>, tcCount: Option<int>, format: Option<int>)
      returns (outcome: Outcome<()>)
      modifies this`tcIn, this`tcOut
      ensures var p := ComparisonLoad(fs, tcPath, tcCount, format);
        tcIn == old(tcIn) + p.ins && tcOut == old(tcOut) + p.outs && outcome == Finish(p.error)
    {
      var ins, outs;
      ins, outs, outcome := LoadComparison(fs, tcPath, tcCount, format);
      tcIn, tcOut := tcIn + ins, tcOut + outs;
    }

    /** `load_code`: refuses None, otherwise stores the path. */
    method LoadCode(path: Option<string>) returns (outcome: Outcome<()>)
      modifies this`codePath
      ensures outcome == (if path == None then Raised(ValueError("code_path cannot be None")) else Ok(()))
      ensures codePath == (if path == None then old(codePath) else path)
    {
      if path.None? {
        return Raised(ValueError("code_path cannot be None"));
      }
      codePath := path;
      return Ok(());
    }

    /** `set_time_limit`: refuses None or a value not above zero and then
        leaves the limit as it was. */
    method SetTimeLimit(limit: Option<real>) returns (outcome: Outcome<()>)
      modifies this`timeLimit
      ensures outcome.Raised? <==> CheckLimit("time_limit", limit).Some?
      ensures outcome.Raised? ==> outcome.error == CheckLimit("time_limit", limit).value && timeLimit == old(timeLimit)
      ensures outcome.Ok? ==> timeLimit == limit
    {
      var check := CheckLimit("time_limit", limit);
      if check.Some? {
        return Raised(check.value);
      }
      timeLimit := limit;
      return Ok(());
    }

    /** `set_memory_limit`: the same checks for the memory limit. */
    method SetMemoryLimit(limit: Option<real>) returns (outcome: Outcome<()>)
      modifies this`memoryLimit
      ensures outcome.Raised? <==> CheckLimit("memory_limit", limit).Some?
      ensures outcome.Raised? ==> outcome.error == CheckLimit("memory_limit", limit).value && memoryLimit == old(memoryLimit)
      ensures outcome.Ok? ==> memoryLimit == limit
    {
      var check := CheckLimit("memory_limit", limit);
      if check.Some? {
        return Raised(check.value);
      }
      memoryLimit := limit;
      return Ok(());
    }

    /** `run`: empties the results, then appends one result per loaded case
        in order; `trials(i)` is what the processes of case i did. A failed
        load can leave more inputs than outputs, and then indexing `TC_out`
        raises IndexError after the cases both lists have. Each case is
        judged by `__run_cycle` as written, TcCycle, pre-run included. */
    method Run(trials: nat -> Trial) returns (outcome: Outcome<()>)
      modifies this`results
      ensures |results| == Min(|tcIn|, |tcOut|)
      ensures forall i :: 0 <= i < |results| ==> results[i] == TcCycle(timeLimit, trials(i), tcOut[i])
      ensures outcome == if |tcOut| < |tcIn| then Raised(IndexError("list index out of range")) else Ok(())
    {
      var expected, limit := tcOut, timeLimit;
      var judged := Min(|tcIn|, |expected|);
      results := JudgeCases(expected[..judged], (k: nat, out: string) => TcCycle(limit, trials(k), out));
      if |expected| < |tcIn| {
        return Raised(IndexError("list index out of range"));
      }
      return Ok(());
    }

    /** `clear_results`. */
    method ClearResults()
      modifies this`results
      ensures results == []
    {
      results := [];
    }

    /** `reset`: forgets the cases, the code path, the time limit and the
        results; the memory limit is not touched. */
    method Reset()
      modifies this`tcIn, this`tcOut, this`codePath, this`timeLimit, this`results
      ensures tcIn == [] && tcOut == [] && codePath == None && timeLimit == None && results == []
      ensures memoryLimit == old(memoryLimit)
    {
      tcIn, tcOut, codePath, timeLimit, results := [], [], None, None, [];
    }
  }

  /** `Checker_Judge`: test inputs, the checker, limits and results. The
      memory limit is not set by the constructor (None here) until
      `set_memory_limit` is called. */
  class CheckerJudge {
    var tcIn: seq<string>
    var checkerPath: Option<string>
    var codePath: Option<string>
    var timeLimit: Option<real>
    var memoryLimit: Option<real>
    var results: seq<Result>

    constructor ()
      ensures tcIn == [] && checkerPath == None && codePath == None && timeLimit == None && results == []
      ensures memoryLimit == None
    {
      tcIn, checkerPath, codePath, timeLimit, results := [], None, None, None, [];
      memoryLimit := None;
    }

    /** `load_TC`: the same checks, then appends the content of
        `pad + ".in"` for case 1..n in order, stopping at the first file
        that cannot be read. */
    method LoadTC(fs: FileSystem, tcPath: Option<string>, tcCount: Option<int>, format: Option<int>)
      returns (outcome: Outcome<()>)
      modifies this`tcIn
      ensures var p := CheckerLoad(fs, tcPath, tcCount, format);
        tcIn == old(tcIn) + p.ins && outcome == Finish(p.error)
    {
      var ins;
      ins, outcome := LoadInputs(fs, tcPath, tcCount, format);
      tcIn := tcIn + ins;
    }

    /** `load_checker`: refuses None, otherwise stores the path. */
    method LoadChecker(path: Option<string>) returns (outcome: Outcome<()>)
      modifies this`checkerPath
      ensures outcome == (if path == None then Raised(ValueError("checker_path cannot be None")) else Ok(()))
      ensures checkerPath == (if path == None then old(checkerPath) else path)
    {
      if path.None? {
        return Raised(ValueError("checker_path cannot be None"));
      }
      checkerPath := path;
      return Ok(());
    }

    /** `load_code`: refuses None, otherwise stores the path. */
    method LoadCode(path: Option<string>) returns (outcome: Outcome<()>)
      modifies this`codePath
      ensures outcome == (if path == None then Raised(ValueError("code_path cannot be None")) else Ok(()))
      ensures codePath == (if path == None then old(codePath) else path)
    {
      if path.None? {
        return Raised(ValueError("code_path cannot be None"));
      }
      codePath := path;
      return Ok(());
    }

    method SetTimeLimit(limit: Option<real>) returns (outcome: Outcome<()>)
      modifies this`timeLimit
      ensures outcome.Raised? <==> CheckLimit("time_limit", limit).Some?
      ensures outcome.Raised? ==> outcome.error == CheckLimit("time_limit", limit).value && timeLimit == old(timeLimit)
      ensures outcome.Ok? ==> timeLimit == limit
    {
      var check := CheckLimit("time_limit", limit);
      if check.Some? {
        return Raised(check.value);
      }
      timeLimit := limit;
      return Ok(());
    }

    method SetMemoryLimit(limit: Option<real>) returns (outcome: Outcome<()>)
      modifies this`memoryLimit
      ensures outcome.Raised? <==> CheckLimit("memory_limit", limit).Some?
      ensures outcome.Raised? ==> outcome.error == CheckLimit("memory_limit", limit).value && memoryLimit == old(memoryLimit)
      ensures outcome.Ok? ==> memoryLimit == limit
    {
      var check := CheckLimit("memory_limit", limit);
      if check.Some? {
        return Raised(check.value);
      }
      memoryLimit := limit;
      return Ok(());
    }

    /** `run`: empties the results, then appends one result per input in
        order. The 2.0 it substitutes for a None time limit stays in a local
        that `run_cycle` never reads: the cycle uses the field. Each case is
        judged by `run_cycle` as written, CheckerCycle. */
    method Run(trials: nat -> Trial)
      modifies this`results
      ensures |results| == |tcIn|
      ensures forall i :: 0 <= i < |tcIn| ==> results[i] == CheckerCycle(timeLimit, trials(i))
      ensures timeLimit == old(timeLimit)
    {
      // The source's `time_limit` local, computed and never read again.
      var localLimit := if timeLimit.None? then 2.0 else timeLimit.value;
      var limit := timeLimit;
      results := JudgeCases(tcIn, (k: nat, input: string) => CheckerCycle(limit, trials(k)));
    }

    method ClearResults()
      modifies this`results
      ensures results == []
    {
      results := [];
    }

    /** `reset`: forgets the cases, both paths, the time limit and the
        results; the memory limit is not touched. */
    method Reset()
      modifies this`tcIn, this`checkerPath, this`codePath, this`timeLimit, this`results
      ensures tcIn == [] && checkerPath == None && codePath == None && timeLimit == None && results == []
      ensures memoryLimit == old(memoryLimit)
    {
      tcIn, checkerPath, codePath, timeLimit, results := [], None, None, None, [];
    }
  }

  // ---------------------------------------------------------------------
  // Reporting and clients

  /** The counters of `print_results`: one per AC, WA, RE and TLE. An MLE
      result is counted in none of them. */
  method Tally(results: seq<Result>) returns (ac: nat, wa: nat, re: nat, tle: nat)
    ensures ac == CountStatus(results, AC) && wa == CountStatus(results, WA)
    ensures re == CountStatus(results, RE) && tle == CountStatus(results, TLE)
    ensures ac + wa + re + tle == |results| - CountStatus(results, MLE)
  {
    ac, wa, re, tle := 0, 0, 0, 0;
    var i := 0;
    while i < |results|
      invariant 0 <= i <= |results|
      invariant ac == CountStatus(results[..i], AC) && wa == CountStatus(results[..i], WA)
      invariant re == CountStatus(results[..i], RE) && tle == CountStatus(results[..i], TLE)
    {
      assert results[..i + 1][..i] == results[..i];
      var status := results[i].status;
      if status == AC {
        ac := ac + 1;
      } else if status == WA {
        wa := wa + 1;
      } else if status == RE {
        re := re + 1;
      } else if status == TLE {
        tle := tle + 1;
      }
      i := i + 1;
    }
    assert results[..i] == results;
    CountsPartition(results);
  }

  /** After `reset`, `run` finishes with an empty result list. */
  method ResetThenRun(judge: TcJudge, trials: nat -> Trial) returns (outcome: Outcome<()>)
    modifies judge
    ensures outcome == Ok(()) && judge.results == []
  {
    judge.Reset();
    outcome := judge.Run(trials);
  }

  /** A load that succeeds on a fresh judge followed by `run` gives exactly
      one result per case, the i-th judged against the i-th expected output. */
  method LoadThenRun(fs: FileSystem, dir: string, count: int, trials: nat -> Trial)
    returns (loaded: Outcome<()>, ran: Outcome<()>, results: seq<Result>)
    ensures loaded.Ok? ==> count > 0 && ran == Ok(()) && |results| == count
    ensures loaded.Raised? ==> results == []
  {
    var judge := new TcJudge();
    loaded := judge.LoadTC(fs, Some(dir), Some(count), None);
    if loaded.Raised? {
      return loaded, Ok(()), [];
    }
    ComparisonLoadSucceedsIff(fs, Some(dir), Some(count), None);
    ran := judge.Run(trials);
    results := judge.results;
  }
}
