/** The judge in src/openjudge/code_judge_debug.py: the same two judges
    with diagnostic printing, no pre-run, a different output comparison
    (`normalize_newlines`) and, for the checker judge, a checker that is
    given the test input and whose output is the expected answer. */
module DebugJudge {
  import opened Common
  import opened Text
  import opened Verdict
  import opened Loading
  import CurrentJudge

  /** `s.replace('\r\n', '\n').strip()`. */
  function NormalizeNewlines(s: string): (r: string)
    ensures |r| <= |s|
    ensures r == [] || (!IsSpace(r[0]) && !IsSpace(r[|r| - 1]))
  {
    Strip(ReplaceCrLf(s))
  }

  /** The comparison of this file: both texts stripped, then normalised. */
  predicate OutputsMatch(actual: string, expected: string)
    ensures Strip(actual) == Strip(expected) ==> OutputsMatch(actual, expected)
  {
    NormalizeNewlines(Strip(actual)) == NormalizeNewlines(Strip(expected))
  }

  /** On a stripped text without carriage returns the normaliser is the
      identity. */
  lemma NormalizeNewlinesFixesStrippedLfText(s: string)
    requires '\r' !in s
    ensures NormalizeNewlines(Strip(s)) == Strip(s)
  {
    var t := Strip(s);
    assert '\r' !in t;
    ReplaceCrLfWithoutCr(t);
    StripIdempotent(s);
  }

  /** On texts without carriage returns this comparison and the one of
      src/openjudge/code_judge.py agree: both accept exactly the outputs
      equal to the expected one up to surrounding whitespace. */
  lemma AgreesWithCurrentOnLfText(actual: string, expected: string)
    requires '\r' !in actual && '\r' !in expected
    ensures OutputsMatch(actual, expected) <==> Strip(actual) == Strip(expected)
    ensures OutputsMatch(actual, expected) <==> CurrentJudge.OutputsMatch(actual, expected)
  {
    NormalizeNewlinesFixesStrippedLfText(actual);
    NormalizeNewlinesFixesStrippedLfText(expected);
    CurrentJudge.MatchOnLfText(actual, expected);
  }

  /** A submission that prints the expected text with CRLF line endings is
      accepted. */
  lemma CrLfOutputMatches(t: string)
    requires '\r' !in t
    ensures OutputsMatch(WithCrLf(t), t)
  {
    StripWithCrLf(t);
    var u := Strip(t);
    assert '\r' !in u;
    ReplaceCrLfUndoesWithCrLf(u);
    NormalizeNewlinesFixesStrippedLfText(t);
  }

  /** The AC/WA decision of this file. */
  function Compare(expected: string, out: string, elapsed: real, rc: int): (r: Result)
    ensures r.status == AC <==> OutputsMatch(out, expected)
    ensures r.status == WA <==> !OutputsMatch(out, expected)
    ensures r.elapsed == Some(elapsed) && r.returnCode == Some(rc)
  {
    if OutputsMatch(out, expected) then Accepted(elapsed, rc) else WrongAnswer(elapsed, rc)
  }

  /** `TC_Judge.__run_cycle` of this file. There is no pre-run, and stdout
      is decoded right after the run, before the memory and exit-code
      checks, so an undecodable stdout ends in the catch-all RE even when
      the watchdog fired or the program failed. */
  function TcCycle(timeLimit: Option<real>, run: Execution, expected: string): (r: Result)
    ensures run.Crashed? ==> r == Crash(run.error)
    ensures run.TimedOut? ==> r == TimeLimitExceeded(timeLimit)
    ensures run.Exited? && run.stdout.Undecodable? ==> r == Crash(run.stdout.error)
    ensures run.Exited? && run.stdout.Text? && run.memExceeded ==> r == MemoryLimitExceeded(run.elapsed)
    ensures run.Exited? && run.stdout.Text? && !run.memExceeded && (run.returnCode != 0 || NonEmpty(run.stderr)) ==>
      r == Failed(run.returnCode, run.stderr, run.elapsed)
    ensures Clean(run) && run.stdout.Text? ==>
      && (r.status == AC <==> OutputsMatch(run.stdout.text, expected))
      && r.status in {AC, WA} && r.returnCode == Some(0)
  {
    if run.Exited? && run.stdout.Undecodable? then Crash(run.stdout.error)
    else Cascade(timeLimit, run, (out, t, rc) => Compare(expected, out, t, rc))
  }

  /** Decoding first changes the verdict of a run the watchdog killed
      mid-character: this file reports RE where the other files report MLE. */
  lemma DecodesBeforeMemoryCheck(timeLimit: Option<real>, expected: string, elapsed: real)
    ensures var run := Exited(true, -9, Undecodable("UnicodeDecodeError"), Text(""), elapsed);
      && TcCycle(timeLimit, run, expected).status == RE
      && CurrentJudge.TcCascade(timeLimit, run, expected).status == MLE
  {
  }

  /** The checker's part of `Checker_Judge.run_cycle`: the checker is fed
      the test input, and its decoded stdout is the expected output. */
  function CheckerCompare(answer: CheckerRun, out: string, elapsed: real, rc: int): (r: Result)
    ensures r.status == AC <==> answer.CheckerExited? && answer.stdout.Text? && OutputsMatch(out, answer.stdout.text)
    ensures r.status == WA <==> answer.CheckerExited? && answer.stdout.Text? && !OutputsMatch(out, answer.stdout.text)
    ensures answer.CheckerRaised? ==> r == Crash(answer.error)
    ensures answer.CheckerExited? && answer.stdout.Undecodable? ==> r == Crash(answer.stdout.error)
  {
    match answer
    case CheckerRaised(e) => Crash(e)
    case CheckerExited(Undecodable(d)) => Crash(d)
    case CheckerExited(Text(c)) => Compare(c, out, elapsed, rc)
  }

  /** `Checker_Judge.run_cycle` of this file: no pre-run, the checks of
      every cascade, then the checker's answer for `input` as the expected
      output. */
  function CheckerCycle(timeLimit: Option<real>, input: string, run: Execution, checker: string -> CheckerRun): (r: Result)
    ensures !Clean(run) ==> r.status in {RE, TLE, MLE}
    ensures Clean(run) && run.stdout.Undecodable? ==> r == Crash(run.stdout.error)
    ensures Clean(run) && run.stdout.Text? ==> r == CheckerCompare(checker(input), run.stdout.text, run.elapsed, 0)
  {
    Cascade(timeLimit, run, (out, t, rc) => CheckerCompare(checker(input), out, t, rc))
  }

  /** The checker is consulted only for a run that exited cleanly. */
  lemma CheckerOnlyForCleanRuns(timeLimit: Option<real>, input: string, run: Execution, c1: string -> CheckerRun, c2: string -> CheckerRun)
    requires !Clean(run) || run.stdout.Undecodable?
    ensures CheckerCycle(timeLimit, input, run, c1) == CheckerCycle(timeLimit, input, run, c2)
  {
  }

  /** `TC_Judge` of this file. */
  class TcJudge {
    var tcIn: seq<string>
    var tcOut: seq<string>
    var codePath: Option<string>
    var timeLimit: Option<real>
    var memoryLimit: Option<real>
    var results: seq<Result>

    constructor ()
      ensures tcIn == [] && tcOut == [] && codePath == None && results == []
      ensures timeLimit == Some(2.0) && memoryLimit == Some(256.0)
    {
      tcIn, tcOut, codePath, results := [], [], None, [];
      timeLimit, memoryLimit := Some(2.0), Some(256.0);
    }

    /** `load_TC`: the argument checks, then input and expected output of
        case 1..n appended in order until a file cannot be read. */
    method LoadTC(fs: FileSystem, tcPath: Option<string>, tcCount: Option<int>, format: Option<int>)
      returns (outcome: Outcome<()>)
      modifies this`tcIn, this`tcOut
      ensures var p := ComparisonLoad(fs, tcPath, tcCount, format);
        tcIn == old(tcIn) + p.ins && tcOut == old(tcOut) + p.outs && outcome == Finish(p.error)
    {
      var ins, outs;
      ins, outs, outcome := LoadComparison(fs, tcPath, tcCount, format);
      tcIn, tcOut := tcIn + ins, tcOut + outs;
    }

    method LoadCode(path: Option<string>) returns (outcome: Outcome<()>)
      modifies this`codePath
      ensures outcome == (if path == None then Raised(ValueError("code_path cannot be None")) else Ok(()))
      ensures codePath == (if path == None then old(codePath) else path)
    {
      if path.None? {
        return Raised(ValueError("code_path cannot be None"));
      }
      codePath := path;
      return Ok(());
    }

    method SetTimeLimit(limit: Option<real>) returns (outcome: Outcome<()>)
      modifies this`timeLimit
      ensures outcome.Raised? <==> CheckLimit("time_limit", limit).Some?
      ensures outcome.Raised? ==> outcome.error == CheckLimit("time_limit", limit).value && timeLimit == old(timeLimit)
      ensures outcome.Ok? ==> timeLimit == limit
    {
      var check := CheckLimit("time_limit", limit);
      if check.Some? {
        return Raised(check.value);
      }
      timeLimit := limit;
      return Ok(());
    }

    method SetMemoryLimit(limit: Option<real>) returns (outcome: Outcome<()>)
      modifies this`memoryLimit
      ensures outcome.Raised? <==> CheckLimit("memory_limit", limit).Some?
      ensures outcome.Raised? ==> outcome.error == CheckLimit("memory_limit", limit).value && memoryLimit == old(memoryLimit)
      ensures outcome.Ok? ==> memoryLimit == limit
    {
      var check := CheckLimit("memory_limit", limit);
      if check.Some? {
        return Raised(check.value);
      }
      memoryLimit := limit;
      return Ok(());
    }

    /** `run`: one result per case in order; IndexError when there are more
        inputs than expected outputs. The pre-run part of each trial is not
        used. */
    method Run(trials: nat -> Trial) returns (outcome: Outcome<()>)
      modifies this`results
      ensures |results| == Min(|tcIn|, |tcOut|)
      ensures forall i :: 0 <= i < |results| ==> results[i] == TcCycle(timeLimit, trials(i).submission, tcOut[i])
      ensures outcome == if |tcOut| < |tcIn| then Raised(IndexError("list index out of range")) else Ok(())
    {
      var expected, limit := tcOut, timeLimit;
      var judged := Min(|tcIn|, |expected|);
      results := JudgeCases(expected[..judged], (k: nat, out: string) => TcCycle(limit, trials(k).submission, out));
      if |expected| < |tcIn| {
        return Raised(IndexError("list index out of range"));
      }
      return Ok(());
    }

    method ClearResults()
      modifies this`results
      ensures results == []
    {
      results := [];
    }

    method Reset()
      modifies this`tcIn, this`tcOut, this`codePath, this`timeLimit, this`results
      ensures tcIn == [] && tcOut == [] && codePath == None && timeLimit == None && results == []
      ensures memoryLimit == old(memoryLimit)
    {
      tcIn, tcOut, codePath, timeLimit, results := [], [], None, None, [];
    }
  }

  /** `Checker_Judge` of this file. As in src/openjudge/code_judge.py the
      memory limit is unset (None) until `set_memory_limit` is called. */
  class CheckerJudge {
    var tcIn: seq<string>
    var checkerPath: Option<string>
    var codePath: Option<string>
    var timeLimit: Option<real>
    var memoryLimit: Option<real>
    var results: seq<Result>

    constructor ()
      ensures tcIn == [] && checkerPath == None && codePath == None && timeLimit == None && results == []
      ensures memoryLimit == None
    {
      tcIn, checkerPath, codePath, timeLimit, results := [], None, None, None, [];
      memoryLimit := None;
    }

    /** `load_TC`: the argument checks, then `pad + ".in"` of case 1..n
        appended in order until a file cannot be read. */
    method LoadTC(fs: FileSystem, tcPath: Option<string>, tcCount: Option<int>, format: Option<int>)
      returns (outcome: Outcome<()>)
      modifies this`tcIn
      ensures var p := CheckerLoad(fs, tcPath, tcCount, format);
        tcIn == old(tcIn) + p.ins && outcome == Finish(p.error)
    {
      var ins;
      ins, outcome := LoadInputs(fs, tcPath, tcCount, format);
      tcIn := tcIn + ins;
    }

    method LoadChecker(path: Option<string>) returns (outcome: Outcome<()>)
      modifies this`checkerPath
      ensures outcome == (if path == None then Raised(ValueError("checker_path cannot be None")) else Ok(()))
      ensures checkerPath == (if path == None then old(checkerPath) else path)
    {
      if path.None? {
        return Raised(ValueError("checker_path cannot be None"));
      }
      checkerPath := path;
      return Ok(());
    }

    method LoadCode(path: Option<string>) returns (outcome: Outcome<()>)
      modifies this`codePath
      ensures outcome == (if path == None then Raised(ValueError("code_path cannot be None")) else Ok(()))
      ensures codePath == (if path == None then old(codePath) else path)
    {
      if path.None? {
        return Raised(ValueError("code_path cannot be None"));
      }
      codePath := path;
      return Ok(());
    }

    method SetTimeLimit(limit: Option<real>) returns (outcome: Outcome<()>)
      modifies this`timeLimit
      ensures outcome.Raised? <==> CheckLimit("time_limit", limit).Some?
      ensures outcome.Raised? ==> outcome.error == CheckLimit("time_limit", limit).value && timeLimit == old(timeLimit)
      ensures outcome.Ok? ==> timeLimit == limit
    {
      var check := CheckLimit("time_limit", limit);
      if check.Some? {
        return Raised(check.value);
      }
      timeLimit := limit;
      return Ok(());
    }

    method SetMemoryLimit(limit: Option<real>) returns (outcome: Outcome<()>)
      modifies this`memoryLimit
      ensures outcome.Raised? <==> CheckLimit("memory_limit", limit).Some?
      ensures outcome.Raised? ==> outcome.error == CheckLimit("memory_limit", limit).value && memoryLimit == old(memoryLimit)
      ensures outcome.Ok? ==> memoryLimit == limit
    {
      var check := CheckLimit("memory_limit", limit);
      if check.Some? {
        return Raised(check.value);
      }
      memoryLimit := limit;
      return Ok(());
    }

    /** `run`: one result per input in order, each judged with the case's
        own input handed to the checker. The 2.0 substituted for a None time
        limit is passed to `run_cycle`, which ignores it. */
    method Run(trials: nat -> Trial)
      modifies this`results
      ensures |results| == |tcIn|
      ensures forall i :: 0 <= i < |tcIn| ==>
        results[i] == CheckerCycle(timeLimit, tcIn[i], trials(i).submission, trials(i).checker)
    {
      var limit := timeLimit;
      results := JudgeCases(tcIn, (k: nat, input: string) => CheckerCycle(limit, input, trials(k).submission, trials(k).checker));
    }

    method ClearResults()
      modifies this`results
      ensures results == []
    {
      results := [];
    }

    method Reset()
      modifies this`tcIn, this`checkerPath, this`codePath, this`timeLimit, this`results
      ensures tcIn == [] && checkerPath == None && codePath == None && timeLimit == None && results == []
      ensures memoryLimit == old(memoryLimit)
    {
      tcIn, checkerPath, codePath, timeLimit, results := [], None, None, None, [];
    }
  }
}
