/** What `load_TC` reads. The file system is a map from path to the bytes
    stored there; `open(path, 'r')` raises FileNotFoundError for a missing
    path, raises on bytes that do not decode, and otherwise returns the
    text with universal newline translation. Every judge variant validates
    its arguments and reads its files the same way, so the specification
    lives here once. */
module Loading {
  import opened Common
  import opened Text
  import opened Naming
  import opened Verdict

  type FileSystem = map<string, Stream>

  /** Text-mode reading turns "\r\n" and a lone "\r" into "\n". */
  function TranslateNewlines(s: string): (r: string)
    ensures |r| <= |s|
    ensures '\r' !in r
  {
    if s == [] then []
    else if s[0] == '\r' then "\n" + TranslateNewlines(if |s| >= 2 && s[1] == '\n' then s[2..] else s[1..])
    else [s[0]] + TranslateNewlines(s[1..])
  }

  lemma {:induction false} TranslateKeepsLfText(s: string)
    requires '\r' !in s
    ensures TranslateNewlines(s) == s
  {
    if s != [] {
      TranslateKeepsLfText(s[1..]);
    }
  }

  /** A file written with CRLF line endings reads back as its LF text: the
      reading half of "CRLF and LF output compare equal". */
  lemma {:induction false} TranslateUndoesWithCrLf(t: string)
    requires '\r' !in t
    ensures TranslateNewlines(WithCrLf(t)) == t
  {
    if t != [] {
      TranslateUndoesWithCrLf(t[1..]);
      var rest := WithCrLf(t[1..]);
      if t[0] == '\n' {
        assert WithCrLf(t) == "\r\n" + rest;
        assert WithCrLf(t)[2..] == rest;
      } else {
        assert WithCrLf(t) == [t[0]] + rest;
        assert WithCrLf(t)[1..] == rest;
      }
    }
  }

  /** A carriage return not followed by a line feed also reads as "\n". */
  lemma TranslateLoneCr(rest: string)
    requires rest == [] || rest[0] != '\n'
    ensures TranslateNewlines(['\r'] + rest) == "\n" + TranslateNewlines(rest)
  {
    assert (['\r'] + rest)[1..] == rest;
  }

  /** `open(path, 'r').read()`. */
  function ReadText(fs: FileSystem, path: string): (r: Outcome<string>)
    ensures path !in fs ==> r == Raised(FileNotFoundError(path))
    ensures path in fs && fs[path].Text? ==> r == Ok(TranslateNewlines(fs[path].text))
    ensures path in fs && fs[path].Undecodable? ==> r == Raised(DecodeError(fs[path].error))
  {
    if path !in fs then Raised(FileNotFoundError(path))
    else match fs[path]
      case Text(t) => Ok(TranslateNewlines(t))
      case Undecodable(e) => Raised(DecodeError(e))
  }

  /** The argument checks at the top of every `load_TC`, in source order:
      a None path, a None count, then a count that is not above zero. */
  function LoadCheck(tcPath: Option<string>, tcCount: Option<int>): (err: Option<Error>)
    ensures err == None <==> tcPath.Some? && tcCount.Some? && tcCount.value > 0
    ensures tcPath == None ==> err == Some(ValueError("tc_path cannot be None"))
    ensures tcPath.Some? && tcCount == None ==> err == Some(ValueError("tc_count cannot be None"))
    ensures tcPath.Some? && tcCount.Some? && tcCount.value <= 0 ==> err == Some(ValueError("tc_count must be over 0"))
  {
    if tcPath.None? then Some(ValueError("tc_path cannot be None"))
    else if tcCount.None? then Some(ValueError("tc_count cannot be None"))
    else if tcCount.value <= 0 then Some(ValueError("tc_count must be over 0"))
    else None
  }

  /** What a comparison-mode load appends: the inputs and outputs read so
      far, and the exception that stopped it (None when all were read). */
  datatype Pairs = Pairs(ins: seq<string>, outs: seq<string>, error: Option<Error>)

  /** Reads the cases whose files are `inPaths[k]` and `outPaths[k]` in
      order, the input file before the output file, stopping at the first
      file that cannot be read; what was read before stays read. */
  function ReadPairs(fs: FileSystem, inPaths: seq<string>, outPaths: seq<string>): Pairs
    requires |inPaths| == |outPaths|
  {
    if inPaths == [] then Pairs([], [], None)
    else match ReadText(fs, inPaths[0])
      case Raised(e) => Pairs([], [], Some(e))
      case Ok(a) =>
        match ReadText(fs, outPaths[0])
        case Raised(e) => Pairs([a], [], Some(e))
        case Ok(b) =>
          var rest := ReadPairs(fs, inPaths[1..], outPaths[1..]);
          Pairs([a] + rest.ins, [b] + rest.outs, rest.error)
  }

  /** Step k of a comparison-mode load, in the shape a loop over the
      cases consumes it. */
  lemma PairsStep(fs: FileSystem, inPaths: seq<string>, outPaths: seq<string>, k: nat)
    requires |inPaths| == |outPaths| && k < |inPaths|
    ensures var p := ReadPairs(fs, inPaths[k..], outPaths[k..]);
      var a := ReadText(fs, inPaths[k]);
      var b := ReadText(fs, outPaths[k]);
      var rest := ReadPairs(fs, inPaths[k + 1..], outPaths[k + 1..]);
      && (a.Raised? ==> p == Pairs([], [], Some(a.error)))
      && (a.Ok? && b.Raised? ==> p == Pairs([a.value], [], Some(b.error)))
      && (a.Ok? && b.Ok? ==> p == Pairs([a.value] + rest.ins, [b.value] + rest.outs, rest.error))
  {
    assert inPaths[k..][1..] == inPaths[k + 1..] && outPaths[k..][1..] == outPaths[k + 1..];
  }

  /** What a checker-mode load appends. */
  datatype Inputs = Inputs(ins: seq<string>, error: Option<Error>)

  function ReadInputs(fs: FileSystem, paths: seq<string>): Inputs
  {
    if paths == [] then Inputs([], None)
    else match ReadText(fs, paths[0])
      case Raised(e) => Inputs([], Some(e))
      case Ok(a) =>
        var rest := ReadInputs(fs, paths[1..]);
        Inputs([a] + rest.ins, rest.error)
  }

  /** Step k of a checker-mode load. */
  lemma InputsStep(fs: FileSystem, paths: seq<string>, k: nat)
    requires k < |paths|
    ensures var p := ReadInputs(fs, paths[k..]);
      var a := ReadText(fs, paths[k]);
      var rest := ReadInputs(fs, paths[k + 1..]);
      && (a.Raised? ==> p == Inputs([], Some(a.error)))
      && (a.Ok? ==> p == Inputs([a.value] + rest.ins, rest.error))
  {
    assert paths[k..][1..] == paths[k + 1..];
  }

  predicate Readable(fs: FileSystem, path: string)
  {
    path in fs && fs[path].Text?
  }

  /** A comparison-mode load keeps the two lists in step: a successful load
      reads exactly one input and one output per case, and a failed one
      leaves the inputs at most one ahead (an input read whose output is
      missing). */
  lemma {:induction false} PairsLockstep(fs: FileSystem, inPaths: seq<string>, outPaths: seq<string>)
    requires |inPaths| == |outPaths|
    ensures var p := ReadPairs(fs, inPaths, outPaths);
      && |p.outs| <= |p.ins| <= |p.outs| + 1
      && (p.error == None ==> |p.ins| == |p.outs| == |inPaths|)
  {
    if inPaths != [] {
      if ReadText(fs, inPaths[0]).Ok? && ReadText(fs, outPaths[0]).Ok? {
        PairsLockstep(fs, inPaths[1..], outPaths[1..]);
      }
    }
  }

  /** A comparison-mode load succeeds exactly when every file is there and
      decodes. */
  lemma {:induction false} PairsSucceedIff(fs: FileSystem, inPaths: seq<string>, outPaths: seq<string>)
    requires |inPaths| == |outPaths|
    ensures ReadPairs(fs, inPaths, outPaths).error == None <==>
      forall k :: 0 <= k < |inPaths| ==> Readable(fs, inPaths[k]) && Readable(fs, outPaths[k])
  {
    if inPaths != [] {
      assert ReadText(fs, inPaths[0]).Ok? <==> Readable(fs, inPaths[0]);
      assert ReadText(fs, outPaths[0]).Ok? <==> Readable(fs, outPaths[0]);
      if ReadText(fs, inPaths[0]).Ok? && ReadText(fs, outPaths[0]).Ok? {
        PairsSucceedIff(fs, inPaths[1..], outPaths[1..]);
        assert forall k :: 1 <= k < |inPaths| ==> inPaths[k] == inPaths[1..][k - 1] && outPaths[k] == outPaths[1..][k - 1];
      }
    }
  }

  /** Entry k of what a comparison-mode load appends is the content of the
      k-th pair of files. */
  lemma {:induction false} PairsContents(fs: FileSystem, inPaths: seq<string>, outPaths: seq<string>, k: nat)
    requires |inPaths| == |outPaths|
    ensures var p := ReadPairs(fs, inPaths, outPaths);
      && (k < |p.ins| ==> k < |inPaths| && ReadText(fs, inPaths[k]) == Ok(p.ins[k]))
      && (k < |p.outs| ==> k < |outPaths| && ReadText(fs, outPaths[k]) == Ok(p.outs[k]))
  {
    if inPaths != [] && k > 0 {
      if ReadText(fs, inPaths[0]).Ok? && ReadText(fs, outPaths[0]).Ok? {
        PairsContents(fs, inPaths[1..], outPaths[1..], k - 1);
      }
    }
  }

  /** A checker-mode load succeeds exactly when every input file is there
      and decodes, and then reads one entry per file. */
  lemma {:induction false} InputsSucceedIff(fs: FileSystem, paths: seq<string>)
    ensures var p := ReadInputs(fs, paths);
      && (p.error == None <==> forall k :: 0 <= k < |paths| ==> Readable(fs, paths[k]))
      && (p.error == None ==> |p.ins| == |paths|)
  {
    if paths != [] {
      assert ReadText(fs, paths[0]).Ok? <==> Readable(fs, paths[0]);
      if ReadText(fs, paths[0]).Ok? {
        InputsSucceedIff(fs, paths[1..]);
        assert forall k :: 1 <= k < |paths| ==> paths[k] == paths[1..][k - 1];
      }
    }
  }

  /** Entry k of what a checker-mode load appends is the content of the
      k-th input file. */
  lemma {:induction false} InputsContents(fs: FileSystem, paths: seq<string>, k: nat)
    ensures var p := ReadInputs(fs, paths);
      k < |p.ins| ==> k < |paths| && ReadText(fs, paths[k]) == Ok(p.ins[k])
  {
    if paths != [] && k > 0 {
      if ReadText(fs, paths[0]).Ok? {
        InputsContents(fs, paths[1..], k - 1);
      }
    }
  }

  // ---------------------------------------------------------------------
  // `load_TC` as a whole

  /** How a load ends: normally, or with the exception that stopped it. */
  function Finish(error: Option<Error>): (r: Outcome<()>)
    ensures r.Ok? <==> error == None
    ensures error.Some? ==> r == Raised(error.value)
  {
    if error.None? then Ok(()) else Raised(error.value)
  }

  /** What a comparison-mode `load_TC` appends and how it ends: the
      argument checks, then the files `test<pad>.in` / `test<pad>.out` of
      cases 1..count under `tcPath`. */
  function ComparisonLoad(fs: FileSystem, tcPath: Option<string>, tcCount: Option<int>, format: Option<int>): Pairs
  {
    var check := LoadCheck(tcPath, tcCount);
    if check.Some? then Pairs([], [], check)
    else
      var n: nat := tcCount.value;
      var w := Width(format, n);
      ReadPairs(fs, PairInputPaths(tcPath.value, w, n), PairOutputPaths(tcPath.value, w, n))
  }

  /** What a checker-mode `load_TC` appends and how it ends: the argument
      checks, then the files `<pad>.in` of cases 1..count. */
  function CheckerLoad(fs: FileSystem, tcPath: Option<string>, tcCount: Option<int>, format: Option<int>): Inputs
  {
    var check := LoadCheck(tcPath, tcCount);
    if check.Some? then Inputs([], check)
    else
      var n: nat := tcCount.value;
      ReadInputs(fs, BareInputPaths(tcPath.value, Width(format, n), n))
  }

  /** The loop of a comparison-mode `load_TC`: for i = 1..count, read the
      input, then the expected output. */
  method LoadComparison(fs: FileSystem, tcPath: Option<string>, tcCount: Option<int>, format: Option<int>)
    returns (ins: seq<string>, outs: seq<string>, outcome: Outcome<()>)
    ensures var p := ComparisonLoad(fs, tcPath, tcCount, format);
      ins == p.ins && outs == p.outs && outcome == Finish(p.error)
  {
    var check := LoadCheck(tcPath, tcCount);
    if check.Some? {
      return [], [], Raised(check.value);
    }
    var dir, n := tcPath.value, tcCount.value;
    var w := Width(format, n);
    ins, outs, outcome := LoadPairs(fs, PairInputPaths(dir, w, n), PairOutputPaths(dir, w, n));
  }

  /** Reads the pairs of files in order, each file appended as soon as it
      is read, and stops at the first one that cannot be read. */
  method LoadPairs(fs: FileSystem, inPaths: seq<string>, outPaths: seq<string>)
    returns (ins: seq<string>, outs: seq<string>, outcome: Outcome<()>)
    requires |inPaths| == |outPaths|
    ensures var p := ReadPairs(fs, inPaths, outPaths);
      ins == p.ins && outs == p.outs && outcome == Finish(p.error)
  {
    ghost var whole := ReadPairs(fs, inPaths, outPaths);
    ins, outs := [], [];
    var k := 0;
    while k < |inPaths|
      invariant 0 <= k <= |inPaths|
      invariant var rest := ReadPairs(fs, inPaths[k..], outPaths[k..]);
        ins + rest.ins == whole.ins && outs + rest.outs == whole.outs && rest.error == whole.error
    {
      PairsStep(fs, inPaths, outPaths, k);
      var a := ReadText(fs, inPaths[k]);
      if a.Raised? {
        return ins, outs, Raised(a.error);
      }
      ins := ins + [a.value];
      var b := ReadText(fs, outPaths[k]);
      if b.Raised? {
        return ins, outs, Raised(b.error);
      }
      outs := outs + [b.value];
      k := k + 1;
    }
    assert inPaths[|inPaths|..] == [];
    outcome := Ok(());
  }

  /** The loop of a checker-mode `load_TC`. */
  method LoadInputs(fs: FileSystem, tcPath: Option<string>, tcCount: Option<int>, format: Option<int>)
    returns (ins: seq<string>, outcome: Outcome<()>)
    ensures var p := CheckerLoad(fs, tcPath, tcCount, format);
      ins == p.ins && outcome == Finish(p.error)
  {
    var check := LoadCheck(tcPath, tcCount);
    if check.Some? {
      return [], Raised(check.value);
    }
    var dir, n := tcPath.value, tcCount.value;
    ins, outcome := LoadFiles(fs, BareInputPaths(dir, Width(format, n), n));
  }

  /** Reads the files in order, each appended as soon as it is read, and
      stops at the first one that cannot be read. */
  method LoadFiles(fs: FileSystem, paths: seq<string>) returns (ins: seq<string>, outcome: Outcome<()>)
    ensures var p := ReadInputs(fs, paths);
      ins == p.ins && outcome == Finish(p.error)
  {
    ghost var whole := ReadInputs(fs, paths);
    ins := [];
    var k := 0;
    while k < |paths|
      invariant 0 <= k <= |paths|
      invariant var rest := ReadInputs(fs, paths[k..]);
        ins + rest.ins == whole.ins && rest.error == whole.error
    {
      InputsStep(fs, paths, k);
      var a := ReadText(fs, paths[k]);
      if a.Raised? {
        return ins, Raised(a.error);
      }
      ins := ins + [a.value];
      k := k + 1;
    }
    assert paths[|paths|..] == [];
    outcome := Ok(());
  }

  /** A comparison-mode load succeeds exactly when the arguments pass the
      checks and both files of every case 1..count are there and decode;
      then it reads one input and one output per case. */
  lemma ComparisonLoadSucceedsIff(fs: FileSystem, tcPath: Option<string>, tcCount: Option<int>, format: Option<int>)
    ensures var p := ComparisonLoad(fs, tcPath, tcCount, format);
      && (p.error == None <==>
            && tcPath.Some? && tcCount.Some? && tcCount.value > 0
            && forall i :: 1 <= i <= tcCount.value ==>
                 && Readable(fs, Join(tcPath.value, PairInputName(i, Width(format, tcCount.value))))
                 && Readable(fs, Join(tcPath.value, PairOutputName(i, Width(format, tcCount.value)))))
      && (p.error == None ==> |p.ins| == |p.outs| == tcCount.value)
      && |p.outs| <= |p.ins| <= |p.outs| + 1
  {
    if LoadCheck(tcPath, tcCount).None? {
      var dir, n := tcPath.value, tcCount.value;
      var w := Width(format, n);
      var inPaths, outPaths := PairInputPaths(dir, w, n), PairOutputPaths(dir, w, n);
      PairsSucceedIff(fs, inPaths, outPaths);
      PairsLockstep(fs, inPaths, outPaths);
      assert forall i :: 1 <= i <= n ==> inPaths[i - 1] == Join(dir, PairInputName(i, w)) && outPaths[i - 1] == Join(dir, PairOutputName(i, w));
    }
  }

  /** Entry k of a comparison-mode load is the content of case k + 1's files. */
  lemma ComparisonLoadContents(fs: FileSystem, tcPath: Option<string>, tcCount: Option<int>, format: Option<int>, k: nat)
    ensures var p := ComparisonLoad(fs, tcPath, tcCount, format);
      && (k < |p.ins| ==>
            && tcPath.Some? && tcCount.Some? && k < tcCount.value
            && ReadText(fs, Join(tcPath.value, PairInputName(k + 1, Width(format, tcCount.value)))) == Ok(p.ins[k]))
      && (k < |p.outs| ==>
            && tcPath.Some? && tcCount.Some? && k < tcCount.value
            && ReadText(fs, Join(tcPath.value, PairOutputName(k + 1, Width(format, tcCount.value)))) == Ok(p.outs[k]))
  {
    if LoadCheck(tcPath, tcCount).None? {
      var dir, n := tcPath.value, tcCount.value;
      var w := Width(format, n);
      PairsContents(fs, PairInputPaths(dir, w, n), PairOutputPaths(dir, w, n), k);
    }
  }

  /** A checker-mode load succeeds exactly when the arguments pass the
      checks and every input file 1..count is there and decodes; then it
      reads one input per case. */
  lemma CheckerLoadSucceedsIff(fs: FileSystem, tcPath: Option<string>, tcCount: Option<int>, format: Option<int>)
    ensures var p := CheckerLoad(fs, tcPath, tcCount, format);
      && (p.error == None <==>
            && tcPath.Some? && tcCount.Some? && tcCount.value > 0
            && forall i :: 1 <= i <= tcCount.value ==>
                 Readable(fs, Join(tcPath.value, BareInputName(i, Width(format, tcCount.value)))))
      && (p.error == None ==> |p.ins| == tcCount.value)
  {
    if LoadCheck(tcPath, tcCount).None? {
      var dir, n := tcPath.value, tcCount.value;
      var w := Width(format, n);
      var paths := BareInputPaths(dir, w, n);
      InputsSucceedIff(fs, paths);
      assert forall i :: 1 <= i <= n ==> paths[i - 1] == Join(dir, BareInputName(i, w));
    }
  }

  /** Entry k of a checker-mode load is the content of case k + 1's input. */
  lemma CheckerLoadContents(fs: FileSystem, tcPath: Option<string>, tcCount: Option<int>, format: Option<int>, k: nat)
    ensures var p := CheckerLoad(fs, tcPath, tcCount, format);
      k < |p.ins| ==>
        && tcPath.Some? && tcCount.Some? && k < tcCount.value
        && ReadText(fs, Join(tcPath.value, BareInputName(k + 1, Width(format, tcCount.value)))) == Ok(p.ins[k])
  {
    if LoadCheck(tcPath, tcCount).None? {
      var dir, n := tcPath.value, tcCount.value;
      InputsContents(fs, BareInputPaths(dir, Width(format, n), n), k);
    }
  }
}
