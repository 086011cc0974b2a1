/** The judge in openjudge/code_judge.py, the earlier version of the
    package: the same two judges, compared by plain `strip()` equality, and
    with the checker given the test input. Each cycle starts with a call to
    `subprocess.runs`, which does not exist. */
module LegacyJudge {
  import opened Common
  import opened Text
  import opened Verdict
  import opened Loading
  import CurrentJudge

  /** The exception the first statement of every cycle raises. */
  const RunsMissing: string := "AttributeError: module 'subprocess' has no attribute 'runs'"

  /** `TC_Judge.__run_cycle` and `Checker_Judge.run_cycle` as written: the
      attribute lookup `subprocess.runs` raises before any process starts,
      and the catch-all handler turns that into RE. */
  function CycleAsWritten(timeLimit: Option<real>, trial: Trial): (r: Result)
    ensures r.status == RE && r.returnCode == None && r.elapsed == Some(0.0)
    ensures r.message == "Runtime Error: " + RunsMissing
  {
    Crash(RunsMissing)
  }

  /** As written, no submission is ever accepted: a program whose output is
      exactly the expected one still gets RE. */
  lemma NothingAccepted(timeLimit: Option<real>, expected: string, elapsed: real, checker: string -> CheckerRun)
    ensures var trial := Trial(PreRunCompleted, Exited(false, 0, Text(expected), Text(""), elapsed), checker);
      && CycleAsWritten(timeLimit, trial).status == RE
      && TcCascade(timeLimit, trial.submission, expected).status == AC
  {
  }

  /** The comparison of this file: equal after `strip()`. */
  predicate OutputsMatch(actual: string, expected: string)
    ensures OutputsMatch(actual, expected) ==> CurrentJudge.OutputsMatch(actual, expected)
  {
    Strip(actual) == Strip(expected)
  }

  /** On texts without carriage returns this comparison and the one of
      src/openjudge/code_judge.py agree. */
  lemma AgreesWithCurrentOnLfText(actual: string, expected: string)
    requires '\r' !in actual && '\r' !in expected
    ensures OutputsMatch(actual, expected) <==> CurrentJudge.OutputsMatch(actual, expected)
  {
    CurrentJudge.MatchOnLfText(actual, expected);
  }

  // The five *Sample lemmas are evaluation facts about the strings of
  // InteriorCrLfRejected and serve only that lemma.

  /** "a\r\nb" has no surrounding whitespace. */
  lemma StripCrLfSample()
    ensures Strip("a\r\nb") == "a\r\nb"
  {
    StripFixesTrimmed("a\r\nb");
  }

  /** "a\nb" has no surrounding whitespace. */
  lemma StripLfSample()
    ensures Strip("a\nb") == "a\nb"
  {
    StripFixesTrimmed("a\nb");
  }

  /** The CRLF in "a\r\nb" is replaced. */
  lemma ReplaceCrLfSample()
    ensures ReplaceCrLf("a\r\nb") == "a\nb"
  {
    var s := "a\r\nb";
    assert s[1..][2..] == "b";
    assert ReplaceCrLf("b") == "b";
    assert ReplaceCrLf(s[1..]) == "\nb";
  }

  /** "a\nb" is left alone by the normaliser. */
  lemma NormalizeLfSample()
    ensures CurrentJudge.NormalizeOutput("a\nb") == "a\nb"
  {
    ReplaceCrLfWithoutCr("a\nb");
    assert RStripChar("a\nb", '\n') == "a\nb";
    assert RStripChar("a\nb", '\r') == "a\nb";
  }

  /** "a\r\nb" normalises to "a\nb". */
  lemma NormalizeCrLfSample()
    ensures CurrentJudge.NormalizeOutput("a\r\nb") == "a\nb"
  {
    ReplaceCrLfSample();
    assert RStripChar("a\nb", '\n') == "a\nb";
    assert RStripChar("a\nb", '\r') == "a\nb";
  }

  /** Line endings inside the output matter here: an interior CRLF where
      the expected output has LF is a wrong answer, which the later
      version accepts. */
  lemma InteriorCrLfRejected()
    ensures !OutputsMatch("a\r\nb", "a\nb")
    ensures CurrentJudge.OutputsMatch("a\r\nb", "a\nb")
  {
    StripCrLfSample();
    StripLfSample();
    assert |"a\r\nb"| != |"a\nb"|;
    NormalizeCrLfSample();
    NormalizeLfSample();
  }

  function Compare(expected: string, out: string, elapsed: real, rc: int): (r: Result)
    ensures r.status == AC <==> OutputsMatch(out, expected)
    ensures r.status == WA <==> !OutputsMatch(out, expected)
    ensures r.elapsed == Some(elapsed) && r.returnCode == Some(rc)
  {
    if OutputsMatch(out, expected) then Accepted(elapsed, rc) else WrongAnswer(elapsed, rc)
  }

  /** `TC_Judge.__run_cycle` without the misspelt call, whose result is
      never used: TLE, MLE, RE, then AC exactly when the stripped outputs
      are equal. */
  function TcCascade(timeLimit: Option<real>, run: Execution, expected: string): (r: Result)
    ensures run.Crashed? ==> r == Crash(run.error)
    ensures run.TimedOut? ==> r == TimeLimitExceeded(timeLimit)
    ensures run.Exited? && run.memExceeded ==> r == MemoryLimitExceeded(run.elapsed)
    ensures !Clean(run) ==> r.status in {RE, TLE, MLE}
    ensures Clean(run) && run.stdout.Text? ==>
      && (r.status == AC <==> Strip(run.stdout.text) == Strip(expected))
      && r.status in {AC, WA} && r.returnCode == Some(0)
  {
    Cascade(timeLimit, run, (out, t, rc) => Compare(expected, out, t, rc))
  }

  /** The checker's part of `Checker_Judge.run_cycle`: the checker is fed
      the test input and its decoded stdout is the expected output. */
  function CheckerCompare(answer: CheckerRun, out: string, elapsed: real, rc: int): (r: Result)
    ensures r.status == AC <==> answer.CheckerExited? && answer.stdout.Text? && OutputsMatch(out, answer.stdout.text)
    ensures r.status == WA <==> answer.CheckerExited? && answer.stdout.Text? && !OutputsMatch(out, answer.stdout.text)
    ensures answer.CheckerRaised? ==> r == Crash(answer.error)
    ensures answer.CheckerExited? && answer.stdout.Undecodable? ==> r == Crash(answer.stdout.error)
  {
    match answer
    case CheckerRaised(e) => Crash(e)
    case CheckerExited(Undecodable(d)) => Crash(d)
    case CheckerExited(Text(c)) => Compare(c, out, elapsed, rc)
  }

  /** `Checker_Judge.run_cycle` without the misspelt call. */
  function CheckerCascade(timeLimit: Option<real>, input: string, run: Execution, checker: string -> CheckerRun): (r: Result)
    ensures !Clean(run) ==> r.status in {RE, TLE, MLE}
    ensures Clean(run) && run.stdout.Undecodable? ==> r == Crash(run.stdout.error)
    ensures Clean(run) && run.stdout.Text? ==> r == CheckerCompare(checker(input), run.stdout.text, run.elapsed, 0)
  {
    Cascade(timeLimit, run, (out, t, rc) => CheckerCompare(checker(input), out, t, rc))
  }

  /** `TC_Judge` of this file. */
  class TcJudge {
    var tcIn: seq<string>
    var tcOut: seq<string>
    var codePath: Option<string>
    var timeLimit: Option<real>
    var memoryLimit: Option<real>
    var results: seq<Result>

    constructor ()
      ensures tcIn == [] && tcOut == [] && codePath == None && results == []
      ensures timeLimit == Some(2.0) && memoryLimit == Some(256.0)
    {
      tcIn, tcOut, codePath, results := [], [], None, [];
      timeLimit, memoryLimit := Some(2.0), Some(256.0);
    }

    /** `load_TC`: the argument checks, then input and expected output of
        case 1..n appended in order until a file cannot be read. */
    method LoadTC(fs: FileSystem, tcPath: Option<string>, tcCount: Option<int>, format: Option<int>)
      returns (outcome: Outcome<()>)
      modifies this`tcIn, this`tcOut
      ensures var p := ComparisonLoad(fs, tcPath, tcCount, format);
        tcIn == old(tcIn) + p.ins && tcOut == old(tcOut) + p.outs && outcome == Finish(p.error)
    {
      var ins, outs;
      ins, outs, outcome := LoadComparison(fs, tcPath, tcCount, format);
      tcIn, tcOut := tcIn + ins, tcOut + outs;
    }

    method LoadCode(path: Option<string>) returns (outcome: Outcome<()>)
      modifies this`codePath
      ensures outcome == (if path == None then Raised(ValueError("code_path cannot be None")) else Ok(()))
      ensures codePath == (if path == None then old(codePath) else path)
    {
      if path.None? {
        return Raised(ValueError("code_path cannot be None"));
      }
      codePath := path;
      return Ok(());
    }

    method SetTimeLimit(limit: Option<real>) returns (outcome: Outcome<()>)
      modifies this`timeLimit
      ensures outcome.Raised? <==> CheckLimit("time_limit", limit).Some?
      ensures outcome.Raised? ==> outcome.error == CheckLimit("time_limit", limit).value && timeLimit == old(timeLimit)
      ensures outcome.Ok? ==> timeLimit == limit
    {
      var check := CheckLimit("time_limit", limit);
      if check.Some? {
        return Raised(check.value);
      }
      timeLimit := limit;
      return Ok(());
    }

    method SetMemoryLimit(limit: Option<real>) returns (outcome: Outcome<()>)
      modifies this`memoryLimit
      ensures outcome.Raised? <==> CheckLimit("memory_limit", limit).Some?
      ensures outcome.Raised? ==> outcome.error == CheckLimit("memory_limit", limit).value && memoryLimit == old(memoryLimit)
      ensures outcome.Ok? ==> memoryLimit == limit
    {
      var check := CheckLimit("memory_limit", limit);
      if check.Some? {
        return Raised(check.value);
      }
      memoryLimit := limit;
      return Ok(());
    }

    /** `run`: one result per case in order, each judged by `__run_cycle`
        as written, CycleAsWritten; IndexError when there are more inputs
        than expected outputs. */
    method Run(trials: nat -> Trial) returns (outcome: Outcome<()>)
      modifies this`results
      ensures |results| == Min(|tcIn|, |tcOut|)
      ensures forall i :: 0 <= i < |results| ==> results[i] == CycleAsWritten(timeLimit, trials(i))
      ensures outcome == if |tcOut| < |tcIn| then Raised(IndexError("list index out of range")) else Ok(())
    {
      var expected, limit := tcOut, timeLimit;
      var judged := Min(|tcIn|, |expected|);
      results := JudgeCases(expected[..judged], (k: nat, out: string) => CycleAsWritten(limit, trials(k)));
      if |expected| < |tcIn| {
        return Raised(IndexError("list index out of range"));
      }
      return Ok(());
    }

    method ClearResults()
      modifies this`results
      ensures results == []
    {
      results := [];
    }

    method Reset()
      modifies this`tcIn, this`tcOut, this`codePath, this`timeLimit, this`results
      ensures tcIn == [] && tcOut == [] && codePath == None && timeLimit == None && results == []
      ensures memoryLimit == old(memoryLimit)
    {
      tcIn, tcOut, codePath, timeLimit, results := [], [], None, None, [];
    }
  }

  /** `Checker_Judge` of this file; its memory limit is unset (None) until
      `set_memory_limit` is called. */
  class CheckerJudge {
    var tcIn: seq<string>
    var checkerPath: Option<string>
    var codePath: Option<string>
    var timeLimit: Option<real>
    var memoryLimit: Option<real>
    var results: seq<Result>

    constructor ()
      ensures tcIn == [] && checkerPath == None && codePath == None && timeLimit == None && results == []
      ensures memoryLimit == None
    {
      tcIn, checkerPath, codePath, timeLimit, results := [], None, None, None, [];
      memoryLimit := None;
    }

    /** `load_TC`: the argument checks, then `pad + ".in"` of case 1..n
        appended in order until a file cannot be read. */
    method LoadTC(fs: FileSystem, tcPath: Option<string>, tcCount: Option<int>, format: Option<int>)
      returns (outcome: Outcome<()>)
      modifies this`tcIn
      ensures var p := CheckerLoad(fs, tcPath, tcCount, format);
        tcIn == old(tcIn) + p.ins && outcome == Finish(p.error)
    {
      var ins;
      ins, outcome := LoadInputs(fs, tcPath, tcCount, format);
      tcIn := tcIn + ins;
    }

    method LoadChecker(path: Option<string>) returns (outcome: Outcome<()>)
      modifies this`checkerPath
      ensures outcome == (if path == None then Raised(ValueError("checker_path cannot be None")) else Ok(()))
      ensures checkerPath == (if path == None then old(checkerPath) else path)
    {
      if path.None? {
        return Raised(ValueError("checker_path cannot be None"));
      }
      checkerPath := path;
      return Ok(());
    }

    method LoadCode(path: Option<string>) returns (outcome: Outcome<()>)
      modifies this`codePath
      ensures outcome == (if path == None then Raised(ValueError("code_path cannot be None")) else Ok(()))
      ensures codePath == (if path == None then old(codePath) else path)
    {
      if path.None? {
        return Raised(ValueError("code_path cannot be None"));
      }
      codePath := path;
      return Ok(());
    }

    method SetTimeLimit(limit: Option<real>) returns (outcome: Outcome<()>)
      modifies this`timeLimit
      ensures outcome.Raised? <==> CheckLimit("time_limit", limit).Some?
      ensures outcome.Raised? ==> outcome.error == CheckLimit("time_limit", limit).value && timeLimit == old(timeLimit)
      ensures outcome.Ok? ==> timeLimit == limit
    {
      var check := CheckLimit("time_limit", limit);
      if check.Some? {
        return Raised(check.value);
      }
      timeLimit := limit;
      return Ok(());
    }

    method SetMemoryLimit(limit: Option<real>) returns (outcome: Outcome<()>)
      modifies this`memoryLimit
      ensures outcome.Raised? <==> CheckLimit("memory_limit", limit).Some?
      ensures outcome.Raised? ==> outcome.error == CheckLimit("memory_limit", limit).value && memoryLimit == old(memoryLimit)
      ensures outcome.Ok? ==> memoryLimit == limit
    {
      var check := CheckLimit("memory_limit", limit);
      if check.Some? {
        return Raised(check.value);
      }
      memoryLimit := limit;
      return Ok(());
    }

    /** `run`: one result per input in order, each judged by `run_cycle` as
        written, CycleAsWritten. The 2.0 substituted for a None time limit
        is never read by the cycle. */
    method Run(trials: nat -> Trial)
      modifies this`results
      ensures |results| == |tcIn|
      ensures forall i :: 0 <= i < |tcIn| ==>
        results[i] == CycleAsWritten(timeLimit, trials(i))
    {
      var limit := timeLimit;
      results := JudgeCases(tcIn, (k: nat, input: string) => CycleAsWritten(limit, trials(k)));
    }

    method ClearResults()
      modifies this`results
      ensures results == []
    {
      results := [];
    }

    method Reset()
      modifies this`tcIn, this`checkerPath, this`codePath, this`timeLimit, this`results
      ensures tcIn == [] && checkerPath == None && codePath == None && timeLimit == None && results == []
      ensures memoryLimit == old(memoryLimit)
    {
      tcIn, checkerPath, codePath, timeLimit, results := [], None, None, None, [];
    }
  }
}
