/** The test-case generator of openjudge/tc_generator.py: it creates the
    empty file pairs `test<pad>.in` / `test<pad>.out` that a comparison-mode
    judge later reads. Creating a file is modelled as mapping its path to an
    empty text; `open(path, "w")` is taken to succeed. */
module Generator {
  import opened Common
  import opened Naming
  import opened Verdict
  import opened Loading
  import CurrentJudge

  /** The exception `str(i).zfill(None)` raises. */
  const NoneWidthError: string := "'NoneType' object cannot be interpreted as an integer"

  /** The argument checks of `generate`, in source order: the count, then
      the generator's own path. */
  function GenerateCheck(tcPath: Option<string>, count: Option<int>): (err: Option<Error>)
    ensures err == None <==> count.Some? && count.value > 0 && tcPath.Some?
    ensures count == None ==> err == Some(ValueError("TC_count cannot be None"))
    ensures count.Some? && count.value <= 0 ==> err == Some(ValueError("TC_count must be over zero"))
    ensures count.Some? && count.value > 0 && tcPath == None ==>
      err == Some(ValueError("TC_path should be set before generating testcases"))
  {
    if count.None? then Some(ValueError("TC_count cannot be None"))
    else if count.value <= 0 then Some(ValueError("TC_count must be over zero"))
    else if tcPath.None? then Some(ValueError("TC_path should be set before generating testcases"))
    else None
  }

  /** `fs` holds an empty file at both paths of every case 1..n. */
  predicate HasBlankCases(fs: FileSystem, dir: string, w: int, n: nat)
  {
    forall i :: 1 <= i <= n ==>
      && Join(dir, PairInputName(i, w)) in fs && fs[Join(dir, PairInputName(i, w))] == Text("")
      && Join(dir, PairOutputName(i, w)) in fs && fs[Join(dir, PairOutputName(i, w))] == Text("")
  }

  /** The paths of both files of every case 1..n. */
  function CasePaths(dir: string, w: int, n: nat): set<string>
  {
    if n == 0 then {}
    else CasePaths(dir, w, n - 1) + {Join(dir, PairInputName(n, w)), Join(dir, PairOutputName(n, w))}
  }

  /** `after` is `before` with the files of cases 1..n created or emptied,
      and nothing else touched. */
  predicate GeneratedFrom(before: FileSystem, after: FileSystem, dir: string, w: int, n: nat)
  {
    && HasBlankCases(after, dir, w, n)
    && after.Keys == before.Keys + CasePaths(dir, w, n)
    && forall p :: p in before && p !in CasePaths(dir, w, n) ==> after[p] == before[p]
  }

  /** `TC_Generator`: where to generate, and an unused checker path. */
  class TcGenerator {
    var tcPath: Option<string>
    var tcCheckerPath: Option<string>

    constructor ()
      ensures tcPath == None && tcCheckerPath == None
    {
      tcPath, tcCheckerPath := None, None;
    }

    /** `set_TC_path`: refuses None, otherwise stores the path. */
    method SetTCPath(path: Option<string>) returns (outcome: Outcome<()>)
      modifies this`tcPath
      ensures outcome == (if path == None then Raised(ValueError("TC_path cannot be None")) else Ok(()))
      ensures tcPath == (if path == None then old(tcPath) else path)
    {
      if path.None? {
        return Raised(ValueError("TC_path cannot be None"));
      }
      tcPath := path;
      return Ok(());
    }

    /** `set_TC_checker`: stores whatever it is given, None included. */
    method SetTCChecker(path: Option<string>)
      modifies this`tcCheckerPath
      ensures tcCheckerPath == path
    {
      tcCheckerPath := path;
    }

    /** `generate`: the checks, then for i = 1..count the input file and the
        output file of case i, created empty. Without a width the first
        `zfill` raises before any file exists. */
    method Generate(fs: FileSystem, count: Option<int>, format: Option<int>) returns (after: FileSystem, outcome: Outcome<()>)
      ensures GenerateCheck(tcPath, count).Some? ==> outcome == Raised(GenerateCheck(tcPath, count).value) && after == fs
      ensures GenerateCheck(tcPath, count).None? && format == None ==> outcome == Raised(TypeError(NoneWidthError)) && after == fs
      ensures GenerateCheck(tcPath, count).None? && format.Some? ==>
        outcome == Ok(()) && GeneratedFrom(fs, after, tcPath.value, format.value, count.value)
    {
      var check := GenerateCheck(tcPath, count);
      if check.Some? {
        return fs, Raised(check.value);
      }
      if format.None? {
        return fs, Raised(TypeError(NoneWidthError));
      }
      after := CreateBlankCases(fs, tcPath.value, format.value, count.value);
      outcome := Ok(());
    }
  }

  /** The loop of `generate`: for i = 1..n, `open(path, "w")` on the input
      file, then on the output file of case i, each leaving an empty file. */
  method CreateBlankCases(fs: FileSystem, dir: string, w: int, n: nat) returns (after: FileSystem)
    ensures GeneratedFrom(fs, after, dir, w, n)
  {
    after := fs;
    var i := 1;
    while i <= n
      invariant 1 <= i <= n + 1
      invariant GeneratedFrom(fs, after, dir, w, i - 1)
    {
      var inPath := Join(dir, PairInputName(i, w));
      var outPath := Join(dir, PairOutputName(i, w));
      CreateStep(fs, after, dir, w, i);
      after := after[inPath := Text("")][outPath := Text("")];
      i := i + 1;
    }
  }

  /** Creating the two files of case i extends a generation of cases
      1..i - 1 to one of cases 1..i. */
  lemma CreateStep(before: FileSystem, after: FileSystem, dir: string, w: int, i: nat)
    requires i >= 1 && GeneratedFrom(before, after, dir, w, i - 1)
    ensures GeneratedFrom(before, after[Join(dir, PairInputName(i, w)) := Text("")][Join(dir, PairOutputName(i, w)) := Text("")], dir, w, i)
  {
    BlankStep(after, dir, w, i);
    assert CasePaths(dir, w, i) == CasePaths(dir, w, i - 1) + {Join(dir, PairInputName(i, w)), Join(dir, PairOutputName(i, w))};
  }

  /** Emptying the two files of case i keeps cases 1..i - 1 empty. */
  lemma BlankStep(fs: FileSystem, dir: string, w: int, i: nat)
    requires i >= 1 && HasBlankCases(fs, dir, w, i - 1)
    ensures HasBlankCases(fs[Join(dir, PairInputName(i, w)) := Text("")][Join(dir, PairOutputName(i, w)) := Text("")], dir, w, i)
  {
    var a, b := Join(dir, PairInputName(i, w)), Join(dir, PairOutputName(i, w));
    var after := fs[a := Text("")][b := Text("")];
    forall j | 1 <= j <= i
      ensures Join(dir, PairInputName(j, w)) in after && after[Join(dir, PairInputName(j, w))] == Text("")
      ensures Join(dir, PairOutputName(j, w)) in after && after[Join(dir, PairOutputName(j, w))] == Text("")
    {
    }
  }

  /** Generating and then loading with the same directory, count and width
      gives `count` empty inputs and `count` empty expected outputs. */
  lemma GenerateThenLoad(after: FileSystem, dir: string, n: nat, w: int)
    requires n > 0
    requires HasBlankCases(after, dir, w, n)
    ensures ComparisonLoad(after, Some(dir), Some(n), Some(w)) == Pairs(seq(n, _ => ""), seq(n, _ => ""), None)
  {
    var p := ComparisonLoad(after, Some(dir), Some(n), Some(w));
    ComparisonLoadSucceedsIff(after, Some(dir), Some(n), Some(w));
    assert p.error == None;
    forall k | 0 <= k < n
      ensures p.ins[k] == "" && p.outs[k] == ""
    {
      ComparisonLoadContents(after, Some(dir), Some(n), Some(w), k);
      assert TranslateNewlines("") == "";
    }
    assert p.ins == seq(n, _ => "");
    assert p.outs == seq(n, _ => "");
  }

  /** The files of a generation never collide: 2 * count distinct paths. */
  lemma GeneratedPathsDistinct(dir: string, w: int, i: nat, j: nat)
    ensures Join(dir, PairInputName(i, w)) == Join(dir, PairInputName(j, w)) ==> i == j
    ensures Join(dir, PairOutputName(i, w)) == Join(dir, PairOutputName(j, w)) ==> i == j
    ensures Join(dir, PairInputName(i, w)) != Join(dir, PairOutputName(j, w))
  {
    PairNamesDistinct(i, j, w);
    if Join(dir, PairInputName(i, w)) == Join(dir, PairInputName(j, w)) {
      JoinInjective(dir, PairInputName(i, w), PairInputName(j, w));
    }
    if Join(dir, PairOutputName(i, w)) == Join(dir, PairOutputName(j, w)) {
      JoinInjective(dir, PairOutputName(i, w), PairOutputName(j, w));
    }
    if Join(dir, PairInputName(i, w)) == Join(dir, PairOutputName(j, w)) {
      JoinInjective(dir, PairInputName(i, w), PairOutputName(j, w));
    }
  }

  /** The intended workflow: generate the files of `count` cases, then let a
      fresh comparison judge load them with the same width. The judge ends
      up with one empty input and one empty expected output per case. */
  method GenerateThenJudgeLoads(fs: FileSystem, dir: string, count: int, width: int)
    returns (generated: Outcome<()>, loaded: Outcome<()>, ins: seq<string>, outs: seq<string>)
    ensures count <= 0 ==> generated == Raised(ValueError("TC_count must be over zero"))
    ensures count > 0 ==>
      generated == Ok(()) && loaded == Ok(()) && ins == seq(count, _ => "") && outs == seq(count, _ => "")
  {
    var generator := new TcGenerator();
    var stored := generator.SetTCPath(Some(dir));
    var after;
    after, generated := generator.Generate(fs, Some(count), Some(width));
    if generated.Raised? {
      return generated, generated, [], [];
    }
    var judge := new CurrentJudge.TcJudge();
    loaded := judge.LoadTC(after, Some(dir), Some(count), Some(width));
    GenerateThenLoad(after, dir, count, width);
    ins, outs := judge.tcIn, judge.tcOut;
  }
}
