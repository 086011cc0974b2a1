/** The problem description builder of src/openjudge/problem_builder.py:
    a record of problem metadata with chainable setters, three of which
    are only allowed for one judge type. */
module Problem {
  import opened Common

  /** `JudgeType`: TEST_CASE = 0, CHECKER = 1. */
  datatype JudgeType = TestCase | Checker

  /** `ProblemBuilder`. The string fields, the tag list and the limits are
      stored as given; the judge type decides which test-data setters are
      allowed. */
  class ProblemBuilder {
    var title: string
    var description: string
    var inputDescription: string
    var outputDescription: string
    var constraints: string
    var examples: string
    var difficulty: string
    var tags: seq<string>
    var author: string
    var judgeType: JudgeType
    var tcCount: int
    var tcPath: Option<string>
    var checkerPath: Option<string>
    var timeLimit: real
    var memoryLimit: int

    /** Empty texts and tags, a test-case problem with no cases and no
        paths, 2.0 seconds and 256 MB. */
    constructor ()
      ensures title == "" && description == "" && inputDescription == "" && outputDescription == ""
      ensures constraints == "" && examples == "" && difficulty == "" && tags == [] && author == ""
      ensures judgeType == TestCase && tcCount == 0 && tcPath == None && checkerPath == None
      ensures timeLimit == 2.0 && memoryLimit == 256
    {
      title, description, inputDescription, outputDescription := "", "", "", "";
      constraints, examples, difficulty, tags, author := "", "", "", [], "";
      judgeType, tcCount, tcPath, checkerPath := TestCase, 0, None, None;
      timeLimit, memoryLimit := 2.0, 256;
    }

    method SetTitle(value: string) returns (r: ProblemBuilder)
      modifies this`title
      ensures title == value && r == this
    {
      title := value;
      r := this;
    }

    method SetDescription(value: string) returns (r: ProblemBuilder)
      modifies this`description
      ensures description == value && r == this
    {
      description := value;
      r := this;
    }

    method SetInputDescription(value: string) returns (r: ProblemBuilder)
      modifies this`inputDescription
      ensures inputDescription == value && r == this
    {
      inputDescription := value;
      r := this;
    }

    method SetOutputDescription(value: string) returns (r: ProblemBuilder)
      modifies this`outputDescription
      ensures outputDescription == value && r == this
    {
      outputDescription := value;
      r := this;
    }

    method SetConstraints(value: string) returns (r: ProblemBuilder)
      modifies this`constraints
      ensures constraints == value && r == this
    {
      constraints := value;
      r := this;
    }

    method SetExamples(value: string) returns (r: ProblemBuilder)
      modifies this`examples
      ensures examples == value && r == this
    {
      examples := value;
      r := this;
    }

    method SetDifficulty(value: string) returns (r: ProblemBuilder)
      modifies this`difficulty
      ensures difficulty == value && r == this
    {
      difficulty := value;
      r := this;
    }

    /** `set_tags`: replaces the whole tag list. */
    method SetTags(value: seq<string>) returns (r: ProblemBuilder)
      modifies this`tags
      ensures tags == value && r == this
    {
      tags := value;
      r := this;
    }

    /** `add_tag`: appends one tag, keeping the earlier ones in order. */
    method AddTag(tag: string) returns (r: ProblemBuilder)
      modifies this`tags
      ensures tags == old(tags) + [tag] && r == this
    {
      tags := tags + [tag];
      r := this;
    }

    method SetAuthor(value: string) returns (r: ProblemBuilder)
      modifies this`author
      ensures author == value && r == this
    {
      author := value;
      r := this;
    }

    /** `set_judge_type`: switching type keeps whatever test data was set. */
    method SetJudgeType(value: JudgeType) returns (r: ProblemBuilder)
      modifies this`judgeType
      ensures judgeType == value && r == this
    {
      judgeType := value;
      r := this;
    }

    /** `set_TC_count`: only for a test-case problem; otherwise raises and
        leaves the count as it was. */
    method SetTCCount(value: int) returns (r: Outcome<ProblemBuilder>)
      modifies this`tcCount
      ensures judgeType != TestCase ==>
        r == Raised(GuardError("set_TC_count can only be used when judge type is TEST_CASE")) && tcCount == old(tcCount)
      ensures judgeType == TestCase ==> r == Ok(this) && tcCount == value
    {
      if judgeType != TestCase {
        return Raised(GuardError("set_TC_count can only be used when judge type is TEST_CASE"));
      }
      tcCount := value;
      r := Ok(this);
    }

    /** `set_TC_path`: only for a test-case problem. Its message names
        `set_TC_count`, as in the source. */
    method SetTCPath(value: Option<string>) returns (r: Outcome<ProblemBuilder>)
      modifies this`tcPath
      ensures judgeType != TestCase ==>
        r == Raised(GuardError("set_TC_count can only be used when judge type is TEST_CASE")) && tcPath == old(tcPath)
      ensures judgeType == TestCase ==> r == Ok(this) && tcPath == value
    {
      if judgeType != TestCase {
        return Raised(GuardError("set_TC_count can only be used when judge type is TEST_CASE"));
      }
      tcPath := value;
      r := Ok(this);
    }

    /** `set_checker_path`: only for a checker problem. Its message names
        `set_TC_count`, as in the source. */
    method SetCheckerPath(value: Option<string>) returns (r: Outcome<ProblemBuilder>)
      modifies this`checkerPath
      ensures judgeType != Checker ==>
        r == Raised(GuardError("set_TC_count can only be used when judge type is CHECKER")) && checkerPath == old(checkerPath)
      ensures judgeType == Checker ==> r == Ok(this) && checkerPath == value
    {
      if judgeType != Checker {
        return Raised(GuardError("set_TC_count can only be used when judge type is CHECKER"));
      }
      checkerPath := value;
      r := Ok(this);
    }

    /** `set_time_limit`: stored without any check. */
    method SetTimeLimit(value: real) returns (r: ProblemBuilder)
      modifies this`timeLimit
      ensures timeLimit == value && r == this
    {
      timeLimit := value;
      r := this;
    }

    /** `set_memory_limit`: stored without any check. */
    method SetMemoryLimit(value: int) returns (r: ProblemBuilder)
      modifies this`memoryLimit
      ensures memoryLimit == value && r == this
    {
      memoryLimit := value;
      r := this;
    }

    /** `build`: its body is `pass`, so it changes nothing and returns None. */
    method Build()
    {
    }
  }

  /** A chain of setters on a fresh builder: a test-case problem takes its
      count and path, and each call hands back the same builder. */
  method DescribeTestCaseProblem(name: string, count: int, path: string, tag: string)
    returns (b: ProblemBuilder, counted: Outcome<ProblemBuilder>, located: Outcome<ProblemBuilder>)
    ensures b.title == name && b.tags == [tag] && b.judgeType == TestCase
    ensures counted == Ok(b) && located == Ok(b)
    ensures b.tcCount == count && b.tcPath == Some(path) && b.checkerPath == None
  {
    b := new ProblemBuilder();
    var same := b.SetTitle(name);
    same := same.AddTag(tag);
    counted := b.SetTCCount(count);
    located := b.SetTCPath(Some(path));
  }

  /** Once the type is CHECKER, the test-case setters raise and the checker
      path is accepted; the count and path keep their defaults. */
  method DescribeCheckerProblem(checker: string, count: int)
    returns (b: ProblemBuilder, counted: Outcome<ProblemBuilder>, checked: Outcome<ProblemBuilder>)
    ensures counted.Raised? && counted.error.GuardError?
    ensures checked == Ok(b)
    ensures b.judgeType == Checker && b.tcCount == 0 && b.tcPath == None && b.checkerPath == Some(checker)
  {
    b := new ProblemBuilder();
    var same := b.SetJudgeType(Checker);
    counted := b.SetTCCount(count);
    checked := b.SetCheckerPath(Some(checker));
  }
}
