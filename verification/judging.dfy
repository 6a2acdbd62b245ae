/**
 * JudgeService: the language table, the mapping from a sandbox run to a
 * verdict, the test-case loop that stops at the first rejection, and the
 * status updates around it. The Docker sandbox is an oracle: a function from
 * the run request to the run outcome.
 */
module Judging {
  import opened Wrappers
  import opened Text
  import opened Model
  import opened Repositories

  // ----- Languages -----

  datatype Language = Java | Python | Cpp

  function LanguageName(l: Language): string {
    match l
    case Java => "java"
    case Python => "python"
    case Cpp => "cpp"
  }

  /** The switch on language.toLowerCase() shared by getFileName and buildDockerCommand. */
  function ParseLanguage(language: string): Option<Language> {
    var lower := LowerAscii(language);
    if lower == "java" then Some(Java)
    else if lower == "python" then Some(Python)
    else if lower == "cpp" then Some(Cpp)
    else None
  }

  /** A language is recognised exactly when its lower-cased name is one of the three. */
  lemma ParseLanguageNames(language: string, l: Language)
    ensures ParseLanguage(language) == Some(l) <==> LowerAscii(language) == LanguageName(l)
  {
  }

  /** The match ignores case: lower-casing the name first changes nothing. */
  lemma ParseLanguageIgnoresCase(language: string)
    ensures ParseLanguage(language) == ParseLanguage(LowerAscii(language))
  {
    LowerAsciiIdempotent(language);
  }

  lemma ParseLanguageExamples()
    ensures ParseLanguage("Java") == Some(Java) && ParseLanguage("PYTHON") == Some(Python)
    ensures ParseLanguage("CPP") == Some(Cpp) && ParseLanguage("c++") == None
  {
  }

  /** Each language's own lower-case name selects it. */
  lemma ParseLanguageName(l: Language)
    ensures ParseLanguage(LanguageName(l)) == Some(l)
  {
    LowerAsciiIdempotent(LanguageName(l));
  }

  const UnsupportedLanguage := "Unsupported language: "

  /** getFileName: the canonical source file name; the error quotes the language as given. */
  function GetFileName(language: string): (r: Result<string>)
    ensures r.Success? <==> ParseLanguage(language).Some?
    ensures r.Failure? ==> r.error == UnsupportedLanguage + language
    ensures ParseLanguage(language) == Some(Java) ==> r == Success("Solution.java")
    ensures ParseLanguage(language) == Some(Python) ==> r == Success("solution.py")
    ensures ParseLanguage(language) == Some(Cpp) ==> r == Success("solution.cpp")
  {
    match ParseLanguage(language)
    case Some(Java) => Success("Solution.java")
    case Some(Python) => Success("solution.py")
    case Some(Cpp) => Success("solution.cpp")
    case None => Failure(UnsupportedLanguage + language)
  }

  ghost predicate EndsWith(s: string, suffix: string) {
    |suffix| <= |s| && s[|s| - |suffix|..] == suffix
  }

  const Workspace := "cd /workspace && "

  /** The compile-and-run part of each language's format string. */
  function CompileAndRun(l: Language, codeFile: string): string {
    match l
    case Java => "javac " + codeFile + " && java " + RemoveAll(codeFile, ".java")
    case Python => "python " + codeFile
    case Cpp => "g++ -o main " + codeFile + " && ./main"
  }

  /**
   * buildDockerCommand: the shell line run inside the container. Each format
   * string is "cd /workspace && ", the compile-and-run part, then the input
   * file on standard input and standard output sent to the output file.
   */
  function BuildDockerCommand(language: string, codeFile: string, inputFile: string, outputFile: string): (r: Result<string>)
    ensures r.Success? <==> ParseLanguage(language).Some?
    ensures r.Failure? ==> r.error == UnsupportedLanguage + LowerAscii(language)
  {
    match ParseLanguage(language)
    case Some(l) => Success(Workspace + CompileAndRun(l, codeFile) + " < " + inputFile + " > " + outputFile)
    case None => Failure(UnsupportedLanguage + LowerAscii(language))
  }

  /**
   * Every command line starts in the mounted workspace and ends by sending the
   * input file to standard input and standard output to the output file.
   */
  lemma CommandRedirects(language: string, codeFile: string, inputFile: string, outputFile: string)
    requires ParseLanguage(language).Some?
    ensures var command := BuildDockerCommand(language, codeFile, inputFile, outputFile).value;
            && |Workspace| <= |command| && command[..|Workspace|] == Workspace
            && EndsWith(command, " < " + inputFile + " > " + outputFile)
  {
    var redirect := " < " + inputFile + " > " + outputFile;
    var middle := CompileAndRun(ParseLanguage(language).value, codeFile);
    var command := BuildDockerCommand(language, codeFile, inputFile, outputFile).value;
    assert command == Workspace + middle + redirect;
    assert command[|command| - |redirect|..] == redirect;
    assert command[..|Workspace|] == Workspace;
  }

  /**
   * A Java source file `name.java` is compiled and then run by its class name:
   * the replace of ".java" removes just the extension when the name has no dot.
   */
  lemma JavaRunsClass(name: string)
    requires forall i :: 0 <= i < |name| ==> name[i] != '.'
    ensures CompileAndRun(Java, name + ".java") == "javac " + name + ".java" + " && java " + name
  {
    RemoveAllTrailing(name, ".java");
  }

  // Each language's format string, with the three file names filled in.

  lemma JavaCommand(language: string, codeFile: string, inputFile: string, outputFile: string)
    requires ParseLanguage(language) == Some(Java)
    ensures BuildDockerCommand(language, codeFile, inputFile, outputFile)
            == Success("cd /workspace && javac " + codeFile + " && java " + RemoveAll(codeFile, ".java")
                       + " < " + inputFile + " > " + outputFile)
  {
    var c := "javac " + codeFile + " && java " + RemoveAll(codeFile, ".java");
    assert Workspace + c == "cd /workspace && javac " + codeFile + " && java " + RemoveAll(codeFile, ".java") by {
      assert Workspace + "javac " == "cd /workspace && javac ";
    }
  }

  lemma PythonCommand(language: string, codeFile: string, inputFile: string, outputFile: string)
    requires ParseLanguage(language) == Some(Python)
    ensures BuildDockerCommand(language, codeFile, inputFile, outputFile)
            == Success("cd /workspace && python " + codeFile + " < " + inputFile + " > " + outputFile)
  {
    assert Workspace + ("python " + codeFile) == "cd /workspace && python " + codeFile by {
      assert Workspace + "python " == "cd /workspace && python ";
    }
  }

  lemma CppCommand(language: string, codeFile: string, inputFile: string, outputFile: string)
    requires ParseLanguage(language) == Some(Cpp)
    ensures BuildDockerCommand(language, codeFile, inputFile, outputFile)
            == Success("cd /workspace && g++ -o main " + codeFile + " && ./main < " + inputFile + " > " + outputFile)
  {
    var c := "g++ -o main " + codeFile + " && ./main";
    assert Workspace + c + " < " == "cd /workspace && g++ -o main " + codeFile + " && ./main < " by {
      assert Workspace + "g++ -o main " == "cd /workspace && g++ -o main ";
      assert " && ./main" + " < " == " && ./main < ";
    }
  }

  /**
   * The `docker run` argument list for one run: the container is removed
   * afterwards, gets the memory limit in megabytes, one CPU and no network, and
   * runs the command through `sh -c`.
   */
  function DockerArgs(memoryLimit: int, tempDir: string, command: string): (args: seq<string>)
    ensures |args| == 12 && args[0] == "docker" && args[1] == "run" && args[11] == command
    ensures args[2] == "--rm" && args[4] == "--cpus=1" && args[5] == "--network=none"
    ensures args[3] == "--memory=" + IntToString(memoryLimit) + "m"
  {
    ["docker", "run", "--rm",
     "--memory=" + IntToString(memoryLimit) + "m",
     "--cpus=1",
     "--network=none",
     "-v", tempDir + ":/workspace",
     "onlinejudge-judge:latest",
     "sh", "-c", command]
  }

  // ----- One run and its verdict -----

  /**
   * What the sandbox is given: the temp-directory prefix, the source file name
   * and text, the test input, the shell command, the memory limit (MB) and the
   * time limit (seconds) to wait for.
   */
  datatype RunRequest = RunRequest(
    workDirPrefix: string,
    codeFile: string,
    code: string,
    input: string,
    command: string,
    memoryLimit: int,
    timeLimit: int)
  {
    /** The `docker run` argument list executeCode starts the process with. */
    function Args(): seq<string> {
      DockerArgs(memoryLimit, workDirPrefix, command)
    }
  }

  /**
   * What comes back: the process did not finish within the time limit; or it
   * exited with a code and (read only when the code is 0) an output file; or an
   * exception was thrown by the file system or the process runtime.
   */
  datatype RunOutcome =
    | TimedOut
    | Exited(exitCode: int, output: string)
    | Faulted(message: string)

  datatype JudgeResult = JudgeResult(status: SubmissionStatus, errorMessage: string, accepted: bool)

  const AcceptedResult := JudgeResult(Accepted, "Accepted", true)

  /** The catch block of executeCode. */
  function ExecutionFailure(message: string): (r: JudgeResult)
    ensures r.status == RuntimeError && !r.accepted
    ensures r.errorMessage == "Execution error: " + message
  {
    JudgeResult(RuntimeError, "Execution error: " + message, false)
  }

  /** The outcome-to-result part of executeCode. */
  function Verdict(outcome: RunOutcome, expectedOutput: string): (r: JudgeResult)
    ensures r.status.IsTerminal()
    ensures r.accepted <==> r.status == Accepted
    ensures r.accepted <==> outcome.Exited? && outcome.exitCode == 0 && Trim(outcome.output) == Trim(expectedOutput)
    ensures r.accepted ==> r == AcceptedResult
    ensures outcome.Exited? && outcome.exitCode == 0 && Trim(outcome.output) != Trim(expectedOutput) ==>
              r == JudgeResult(WrongAnswer, "Wrong Answer", false)
    ensures outcome.Exited? && outcome.exitCode != 0 ==>
              r == JudgeResult(RuntimeError, "Runtime error (exit code: " + IntToString(outcome.exitCode) + ")", false)
    ensures outcome.Faulted? ==> r == ExecutionFailure(outcome.message)
  {
    match outcome
    case TimedOut => JudgeResult(TimeLimitExceeded, "Time limit exceeded", false)
    case Exited(code, output) =>
      if code != 0 then JudgeResult(RuntimeError, "Runtime error (exit code: " + IntToString(code) + ")", false)
      else if Trim(output) == Trim(expectedOutput) then AcceptedResult
      else JudgeResult(WrongAnswer, "Wrong Answer", false)
    case Faulted(message) => ExecutionFailure(message)
  }

  /** A run past the time limit is TIME_LIMIT_EXCEEDED, whatever else is known. */
  lemma TimeoutVerdict(expectedOutput: string)
    ensures Verdict(TimedOut, expectedOutput) == JudgeResult(TimeLimitExceeded, "Time limit exceeded", false)
  {
  }

  /**
   * A nonzero exit is RUNTIME_ERROR whatever the output, and the message names the
   * exit code: two different codes never give the same message.
   */
  lemma RuntimeErrorNamesExitCode(c1: int, out1: string, c2: int, out2: string, expected: string)
    requires c1 != 0 && c2 != 0
    ensures Verdict(Exited(c1, out1), expected).status == RuntimeError
    ensures Verdict(Exited(c1, out1), expected) == Verdict(Exited(c1, out2), expected)
    ensures Verdict(Exited(c1, out1), expected).errorMessage == Verdict(Exited(c2, out2), expected).errorMessage ==> c1 == c2
  {
    var m1 := Verdict(Exited(c1, out1), expected).errorMessage;
    var m2 := Verdict(Exited(c2, out2), expected).errorMessage;
    var prefix := "Runtime error (exit code: ";
    if m1 == m2 {
      var s1 := IntToString(c1);
      var s2 := IntToString(c2);
      assert m1 == prefix + s1 + ")";
      assert m2 == prefix + s2 + ")";
      assert |s1| == |s2|;
      assert s1 == m1[|prefix|..|prefix| + |s1|];
      assert s2 == m2[|prefix|..|prefix| + |s2|];
      IntToStringInjective(c1, c2);
    }
  }

  /** The comparison ignores blanks at the edges only. */
  lemma OutputComparisonExamples()
    ensures Verdict(Exited(0, "8\n"), "8").accepted
    ensures Verdict(Exited(0, "8 "), "8").accepted
    ensures Verdict(Exited(0, "8\n9"), "89").status == WrongAnswer
  {
    TrimExamples();
    assert "8\n9" != "89" by { assert |"8\n9"| == 3; }
  }

  // ----- executeCode over one test case -----

  /** What judging one submission needs from it, plus the sandbox. */
  datatype RunContext = RunContext(
    submissionId: Option<int>,
    code: string,
    language: string,
    timeLimit: int,
    memoryLimit: int,
    sandbox: RunRequest -> RunOutcome)

  function IdText(id: Option<int>): string {
    match id
    case Some(n) => IntToString(n)
    case None => "null"
  }

  /**
   * The run executeCode would start for this test case, or the message of the
   * exception thrown before any process is started.
   */
  function PlannedRun(ctx: RunContext, tc: TestCase): (r: Result<RunRequest>)
    ensures r.Success? <==> ParseLanguage(ctx.language).Some?
    ensures r.Failure? ==> r.error == UnsupportedLanguage + ctx.language
    ensures r.Success? ==> r.value.input == tc.input && r.value.code == ctx.code
    ensures r.Success? ==> r.value.timeLimit == ctx.timeLimit && r.value.memoryLimit == ctx.memoryLimit
    ensures r.Success? ==> r.value.codeFile == GetFileName(ctx.language).value
    ensures r.Success? ==> r.value.command == BuildDockerCommand(ctx.language, r.value.codeFile, "input.txt", "output.txt").value
  {
    match GetFileName(ctx.language)
    case Failure(e) => Failure(e)
    case Success(fileName) =>
      match BuildDockerCommand(ctx.language, fileName, "input.txt", "output.txt")
      case Failure(e) => Failure(e)
      case Success(command) =>
        Success(RunRequest("judge_" + IdText(ctx.submissionId), fileName, ctx.code, tc.input,
                           command, ctx.memoryLimit, ctx.timeLimit))
  }

  /** executeCode: the result for one test case. */
  function ExecuteResult(ctx: RunContext, tc: TestCase): (r: JudgeResult)
    ensures r.status.IsTerminal()
    ensures r.accepted <==> r.status == Accepted
    ensures ParseLanguage(ctx.language).None? ==> r == ExecutionFailure(UnsupportedLanguage + ctx.language)
  {
    match PlannedRun(ctx, tc)
    case Failure(e) => ExecutionFailure(e)
    case Success(request) => Verdict(ctx.sandbox(request), tc.expectedOutput)
  }

  /** For a supported language, the result is the verdict on what the sandbox reports for the planned run. */
  lemma ExecuteResultVerdict(ctx: RunContext, tc: TestCase)
    requires ParseLanguage(ctx.language).Some?
    ensures ExecuteResult(ctx, tc) == Verdict(ctx.sandbox(PlannedRun(ctx, tc).value), tc.expectedOutput)
  {
  }

  /**
   * Every process executeCode starts runs in a throw-away container with one
   * CPU, no network and the problem's memory limit, and runs the language's
   * command through `sh -c`.
   */
  lemma SandboxIsolation(ctx: RunContext, tc: TestCase)
    requires ParseLanguage(ctx.language).Some?
    ensures var request := PlannedRun(ctx, tc).value;
            var args := request.Args();
            && args[..3] == ["docker", "run", "--rm"]
            && args[3] == "--memory=" + IntToString(ctx.memoryLimit) + "m"
            && args[4] == "--cpus=1" && args[5] == "--network=none"
            && args[11] == request.command
            && request.command == BuildDockerCommand(ctx.language, request.codeFile, "input.txt", "output.txt").value
  {
    var args := PlannedRun(ctx, tc).value.Args();
    assert args[..3] == [args[0], args[1], args[2]];
  }

  /** What the judge does that can be observed: status writes and sandbox runs. */
  datatype Event =
    | StatusWritten(submissionId: int, status: SubmissionStatus, result: Option<string>)
    | SandboxRun(request: RunRequest)

  /** The sandbox runs executeCode starts for one test case: one, or none if the language is refused. */
  function RunsOf(ctx: RunContext, tc: TestCase): seq<Event> {
    match PlannedRun(ctx, tc)
    case Success(request) => [SandboxRun(request)]
    case Failure(_) => []
  }

  /** The sandbox runs for a list of test cases executed one after the other. */
  function Runs(ctx: RunContext, cases: seq<TestCase>): seq<Event>
    decreases |cases|
  {
    if cases == [] then [] else Runs(ctx, cases[..|cases| - 1]) + RunsOf(ctx, cases[|cases| - 1])
  }

  lemma AppendAssociative<T>(a: seq<T>, b: seq<T>, c: seq<T>)
    ensures a + b + c == a + (b + c)
  {
  }

  /** Executing one more test case appends its runs. */
  lemma RunsExtend(ctx: RunContext, cases: seq<TestCase>, i: nat)
    requires i < |cases|
    ensures Runs(ctx, cases[..i + 1]) == Runs(ctx, cases[..i]) + RunsOf(ctx, cases[i])
  {
    assert cases[..i + 1][..i] == cases[..i];
  }

  /**
   * The runs of a list of test cases are one run per test case, in order, each
   * with that test case's input; none at all for a refused language.
   */
  lemma RunsInOrder(ctx: RunContext, cases: seq<TestCase>)
    ensures ParseLanguage(ctx.language).None? ==> Runs(ctx, cases) == []
    ensures ParseLanguage(ctx.language).Some? ==>
              |Runs(ctx, cases)| == |cases| &&
              forall j :: 0 <= j < |cases| ==>
                Runs(ctx, cases)[j] == SandboxRun(PlannedRun(ctx, cases[j]).value) &&
                Runs(ctx, cases)[j].request.input == cases[j].input
  {
    if ParseLanguage(ctx.language).None? {
      RunsRefused(ctx, cases);
    } else {
      RunsLength(ctx, cases);
      forall j | 0 <= j < |cases|
        ensures Runs(ctx, cases)[j] == SandboxRun(PlannedRun(ctx, cases[j]).value)
      {
        RunAt(ctx, cases, j);
      }
    }
  }

  /** A refused language runs nothing, whatever the test cases. */
  lemma {:induction false} RunsRefused(ctx: RunContext, cases: seq<TestCase>)
    requires ParseLanguage(ctx.language).None?
    ensures Runs(ctx, cases) == []
    decreases |cases|
  {
    if cases != [] {
      RunsRefused(ctx, cases[..|cases| - 1]);
      RunsOfPlanned(ctx, cases[|cases| - 1]);
    }
  }

  /** A supported language runs once per test case. */
  lemma {:induction false} RunsLength(ctx: RunContext, cases: seq<TestCase>)
    requires ParseLanguage(ctx.language).Some?
    ensures |Runs(ctx, cases)| == |cases|
    decreases |cases|
  {
    if cases != [] {
      RunsLength(ctx, cases[..|cases| - 1]);
      RunsOfPlanned(ctx, cases[|cases| - 1]);
    }
  }

  /** The j-th run of a supported language is the j-th test case's planned run. */
  lemma {:induction false} RunAt(ctx: RunContext, cases: seq<TestCase>, j: nat)
    requires ParseLanguage(ctx.language).Some?
    requires j < |cases|
    ensures |Runs(ctx, cases)| == |cases|
    ensures Runs(ctx, cases)[j] == SandboxRun(PlannedRun(ctx, cases[j]).value)
    decreases |cases|
  {
    var n := |cases| - 1;
    var front := cases[..n];
    RunsLength(ctx, cases);
    RunsLength(ctx, front);
    RunsOfPlanned(ctx, cases[n]);
    assert Runs(ctx, cases) == Runs(ctx, front) + RunsOf(ctx, cases[n]);
    if j < n {
      RunAt(ctx, front, j);
      assert front[j] == cases[j];
    }
  }

  /** One test case's runs: its planned run, or none for a refused language. */
  lemma RunsOfPlanned(ctx: RunContext, tc: TestCase)
    ensures ParseLanguage(ctx.language).None? ==> RunsOf(ctx, tc) == []
    ensures ParseLanguage(ctx.language).Some? ==> RunsOf(ctx, tc) == [SandboxRun(PlannedRun(ctx, tc).value)]
  {
  }

  // ----- The test-case loop of judgeSubmission -----

  /** The result of judging `cases` in order: the first rejection, else ACCEPTED. */
  function JudgeCases(ctx: RunContext, cases: seq<TestCase>): (r: JudgeResult)
    ensures r.status.IsTerminal()
    ensures r.accepted <==> r.status == Accepted
    decreases |cases|
  {
    if cases == [] then AcceptedResult
    else
      var first := ExecuteResult(ctx, cases[0]);
      if !first.accepted then first else JudgeCases(ctx, cases[1..])
  }

  /** How many test cases are executed: up to and including the first rejection. */
  function Executed(ctx: RunContext, cases: seq<TestCase>): (n: nat)
    ensures n <= |cases|
    decreases |cases|
  {
    if cases == [] then 0
    else if !ExecuteResult(ctx, cases[0]).accepted then 1
    else 1 + Executed(ctx, cases[1..])
  }

  /**
   * One step of the loop over the remaining test cases `cases[i..]`: an accepted
   * test case passes judging on to the rest; a rejected one ends it with its own
   * verdict after one run.
   */
  lemma JudgeStep(ctx: RunContext, cases: seq<TestCase>, i: nat)
    requires i < |cases|
    ensures var first := ExecuteResult(ctx, cases[i]);
            && (first.accepted ==> JudgeCases(ctx, cases[i..]) == JudgeCases(ctx, cases[i + 1..])
                                   && Executed(ctx, cases[i..]) == 1 + Executed(ctx, cases[i + 1..]))
            && (!first.accepted ==> JudgeCases(ctx, cases[i..]) == first && Executed(ctx, cases[i..]) == 1)
  {
    assert cases[i..][0] == cases[i];
    assert cases[i..][1..] == cases[i + 1..];
  }

  /**
   * Judging accepts exactly when every test case is accepted; then the result is
   * "Accepted" and every test case was executed. An empty list is accepted.
   */
  lemma {:induction false} AcceptedIffAllPass(ctx: RunContext, cases: seq<TestCase>)
    ensures JudgeCases(ctx, cases).accepted <==> forall j :: 0 <= j < |cases| ==> ExecuteResult(ctx, cases[j]).accepted
    ensures JudgeCases(ctx, cases).accepted ==> JudgeCases(ctx, cases) == AcceptedResult && Executed(ctx, cases) == |cases|
    decreases |cases|
  {
    if cases != [] {
      AcceptedIffAllPass(ctx, cases[1..]);
      assert forall j :: 1 <= j < |cases| ==> cases[1..][j - 1] == cases[j];
    }
  }

  /**
   * Hence a submission is accepted exactly when its language is supported (or
   * there is no test case) and every run exits with code 0 and prints the
   * expected output up to blanks at the edges.
   */
  lemma JudgedByOutputs(ctx: RunContext, cases: seq<TestCase>)
    ensures JudgeCases(ctx, cases).accepted <==>
              forall j :: 0 <= j < |cases| ==>
                && ParseLanguage(ctx.language).Some?
                && var outcome := ctx.sandbox(PlannedRun(ctx, cases[j]).value);
                   outcome.Exited? && outcome.exitCode == 0 && Trim(outcome.output) == Trim(cases[j].expectedOutput)
  {
    AcceptedIffAllPass(ctx, cases);
    if ParseLanguage(ctx.language).Some? {
      forall j | 0 <= j < |cases|
        ensures ExecuteResult(ctx, cases[j]) == Verdict(ctx.sandbox(PlannedRun(ctx, cases[j]).value), cases[j].expectedOutput)
      {
        ExecuteResultVerdict(ctx, cases[j]);
      }
    }
  }

  /**
   * A rejection is the verdict of the last executed test case, every earlier one
   * was accepted, and the test cases after it are never executed.
   */
  lemma {:induction false} FirstRejectionReported(ctx: RunContext, cases: seq<TestCase>)
    requires !JudgeCases(ctx, cases).accepted
    ensures 1 <= Executed(ctx, cases) <= |cases|
    ensures JudgeCases(ctx, cases) == ExecuteResult(ctx, cases[Executed(ctx, cases) - 1])
    ensures forall j :: 0 <= j < Executed(ctx, cases) - 1 ==> ExecuteResult(ctx, cases[j]).accepted
    decreases |cases|
  {
    var tail := cases[1..];
    if ExecuteResult(ctx, cases[0]).accepted {
      assert JudgeCases(ctx, cases) == JudgeCases(ctx, tail);
      FirstRejectionReported(ctx, tail);
      var n := Executed(ctx, tail);
      assert Executed(ctx, cases) == n + 1;
      assert tail[n - 1] == cases[n];
      assert JudgeCases(ctx, cases) == ExecuteResult(ctx, cases[n]);
      forall j | 0 <= j < n ensures ExecuteResult(ctx, cases[j]).accepted {
        if j > 0 { assert cases[j] == tail[j - 1]; }
      }
    } else {
      assert JudgeCases(ctx, cases) == ExecuteResult(ctx, cases[0]);
      assert Executed(ctx, cases) == 1;
    }
  }

  /** The events of judging a stored submission: RUNNING, the runs, then the verdict. */
  function JudgingEvents(id: int, ctx: RunContext, cases: seq<TestCase>): seq<Event> {
    var verdict := JudgeCases(ctx, cases);
    [StatusWritten(id, Running, None)]
    + Runs(ctx, cases[..Executed(ctx, cases)])
    + [StatusWritten(id, verdict.status, Some(verdict.errorMessage))]
  }

  lemma AppendFour<T>(a: seq<T>, b: seq<T>, c: seq<T>, d: seq<T>)
    ensures a + b + c + d == a + (b + c + d)
  {
  }

  /** TestCaseRepository.findByProblemId: the problem's test cases in stored order. */
  function CasesOf(stored: seq<TestCase>, problemId: int): (r: seq<TestCase>)
    ensures forall tc :: tc in r <==> tc in stored && tc.problemId == problemId
    ensures |r| <= |stored|
    decreases |stored|
  {
    if stored == [] then []
    else CasesOf(stored[..|stored| - 1], problemId)
         + (if stored[|stored| - 1].problemId == problemId then [stored[|stored| - 1]] else [])
  }

  /** Test case ids increase in stored order (IDENTITY ids). */
  ghost predicate CaseIdsAscending(cases: seq<TestCase>) {
    forall i, j :: 0 <= i < j < |cases| ==> cases[i].id < cases[j].id
  }

  /**
   * findByProblemId keeps the stored order: with ids increasing in the store,
   * they increase in the result, so each test case comes once and in order.
   */
  lemma {:induction false} CasesOfAscending(stored: seq<TestCase>, problemId: int)
    requires CaseIdsAscending(stored)
    ensures CaseIdsAscending(CasesOf(stored, problemId))
    decreases |stored|
  {
    if stored != [] {
      var front := stored[..|stored| - 1];
      var last := stored[|stored| - 1];
      SortedPrefix(stored);
      CasesOfAscending(front, problemId);
      var sel := CasesOf(front, problemId);
      if last.problemId == problemId {
        forall m | 0 <= m < |sel| ensures sel[m].id < last.id {
          assert sel[m] in front;
          var k :| 0 <= k < |front| && front[k] == sel[m];
          assert stored[k] == front[k];
        }
        var r := sel + [last];
        forall i, j | 0 <= i < j < |r| ensures r[i].id < r[j].id {
          assert r[i] == sel[i];
          if j < |sel| { assert r[j] == sel[j]; }
        }
        assert CasesOf(stored, problemId) == r;
      } else {
        assert CasesOf(stored, problemId) == sel;
      }
    }
  }

  lemma SortedPrefix(stored: seq<TestCase>)
    requires CaseIdsAscending(stored) && stored != []
    ensures CaseIdsAscending(stored[..|stored| - 1])
  {
    var front := stored[..|stored| - 1];
    forall i, j | 0 <= i < j < |front| ensures front[i].id < front[j].id {
      assert front[i] == stored[i] && front[j] == stored[j];
    }
  }

  // ----- The service -----

  class JudgeService {
    const submissions: SubmissionRepository
    /** The TestCaseRepository's rows, in stored order. */
    const testCases: seq<TestCase>
    /** The Docker sandbox, as an oracle. */
    const sandbox: RunRequest -> RunOutcome
    /** Every status write and every sandbox run, in the order they happen. */
    ghost var trace: seq<Event>

    constructor (submissions: SubmissionRepository, testCases: seq<TestCase>, sandbox: RunRequest -> RunOutcome)
      ensures this.submissions == submissions && this.testCases == testCases && this.sandbox == sandbox
      ensures trace == []
    {
      this.submissions := submissions;
      this.testCases := testCases;
      this.sandbox := sandbox;
      trace := [];
    }

    /** The parts of a submission that judging reads. */
    function ContextOf(s: Submission): RunContext
      reads s`id, s`code, s`language, s`problem
    {
      RunContext(s.id, s.code, s.language, s.problem.timeLimit, s.problem.memoryLimit, sandbox)
    }

    function CasesFor(s: Submission): seq<TestCase>
      reads s`problem
    {
      CasesOf(testCases, s.problem.id)
    }

    /**
     * updateSubmissionStatus: nothing happens for an unknown id; otherwise only
     * the row's status and result are overwritten (the frame allows no other
     * field and no other row).
     */
    method UpdateSubmissionStatus(id: int, status: SubmissionStatus, result: Option<string>)
      requires submissions.Valid()
      modifies this`trace, submissions.Row(id)`status, submissions.Row(id)`result
      ensures submissions.Valid()
      ensures submissions.FindById(id).None? ==> trace == old(trace)
      ensures submissions.FindById(id).Some? ==>
                var s := submissions.FindById(id).value;
                s.status == status && s.result == result &&
                trace == old(trace) + [StatusWritten(id, status, result)]
    {
      var found := submissions.FindById(id);
      if found.Some? {
        var s := found.value;
        s.status := status;
        s.result := result;
        trace := trace + [StatusWritten(id, status, result)];
      }
    }

    /** The process launch: the oracle's answer, recorded in the trace. */
    method RunSandbox(request: RunRequest) returns (outcome: RunOutcome)
      modifies this`trace
      ensures outcome == sandbox(request)
      ensures trace == old(trace) + [SandboxRun(request)]
    {
      outcome := sandbox(request);
      trace := trace + [SandboxRun(request)];
    }

    /** executeCode: no process is started for a refused language. */
    method ExecuteCode(s: Submission, tc: TestCase) returns (r: JudgeResult)
      modifies this`trace
      ensures r == ExecuteResult(ContextOf(s), tc)
      ensures trace == old(trace) + RunsOf(ContextOf(s), tc)
    {
      var fileName := GetFileName(s.language);
      if fileName.Failure? {
        return ExecutionFailure(fileName.error);
      }
      var command := BuildDockerCommand(s.language, fileName.value, "input.txt", "output.txt");
      // its switch accepts exactly the languages getFileName accepted, so it cannot throw here
      assert command.Success?;
      var request := RunRequest("judge_" + IdText(s.id), fileName.value, s.code, tc.input,
                                command.value, s.problem.memoryLimit, s.problem.timeLimit);
      var outcome := RunSandbox(request);
      r := Verdict(outcome, tc.expectedOutput);
    }

    /**
     * The for-loop of judgeSubmission: test cases run in order until one is
     * rejected, whose result is returned; "Accepted" when none is. Only the
     * trace changes.
     */
    method RunTestCases(s: Submission, cases: seq<TestCase>) returns (verdict: JudgeResult)
      modifies this`trace
      ensures verdict == JudgeCases(ContextOf(s), cases)
      ensures trace == old(trace) + Runs(ContextOf(s), cases[..Executed(ContextOf(s), cases)])
    {
      var ctx := ContextOf(s);
      var i := 0;
      while i < |cases|
        invariant 0 <= i <= |cases|
        invariant JudgeCases(ctx, cases) == JudgeCases(ctx, cases[i..])
        invariant Executed(ctx, cases) == i + Executed(ctx, cases[i..])
        invariant trace == old(trace) + Runs(ctx, cases[..i])
      {
        ghost var before := trace;
        var r := ExecuteCode(s, cases[i]);
        assert trace == before + RunsOf(ctx, cases[i]);
        JudgeStep(ctx, cases, i);
        RunsExtend(ctx, cases, i);
        AppendAssociative(old(trace), Runs(ctx, cases[..i]), RunsOf(ctx, cases[i]));
        if !r.accepted {
          assert Executed(ctx, cases) == i + 1;
          return r;
        }
        i := i + 1;
      }
      assert cases[..|cases|] == cases;
      assert Executed(ctx, cases) == |cases|;
      return AcceptedResult;
    }

    /**
     * judgeSubmission: an unknown id throws "Submission not found" and changes
     * nothing; otherwise RUNNING is written before any test case runs, the test
     * cases run in stored order up to the first rejection, and that rejection (or
     * "Accepted") is written last.
     */
    method JudgeSubmission(id: int) returns (o: Outcome)
      requires submissions.Valid()
      modifies this`trace, submissions.Row(id)`status, submissions.Row(id)`result
      ensures submissions.Valid()
      ensures submissions.FindById(id).None? ==> o == Fail("Submission not found") && trace == old(trace)
      ensures submissions.FindById(id).Some? ==>
                var s := submissions.FindById(id).value;
                var verdict := JudgeCases(ContextOf(s), CasesFor(s));
                && o == Pass
                && s.status == verdict.status
                && s.result == Some(verdict.errorMessage)
                && trace == old(trace) + JudgingEvents(id, ContextOf(s), CasesFor(s))
    {
      var found := submissions.FindById(id);
      if found.None? {
        return Fail("Submission not found");
      }
      var s := found.value;
      UpdateSubmissionStatus(id, Running, None);
      var verdict := RunTestCases(s, CasesFor(s));
      UpdateSubmissionStatus(id, verdict.status, Some(verdict.errorMessage));
      AppendFour(old(trace), [StatusWritten(id, Running, None)],
                 Runs(ContextOf(s), CasesFor(s)[..Executed(ContextOf(s), CasesFor(s))]),
                 [StatusWritten(id, verdict.status, Some(verdict.errorMessage))]);
      return Pass;
    }

    /**
     * queueSubmission: runs the judge and turns anything it throws into
     * RUNTIME_ERROR "Judge error: ..."; a stored submission always ends with a
     * terminal status.
     */
    method QueueSubmission(id: int)
      requires submissions.Valid()
      modifies this`trace, submissions.Row(id)`status, submissions.Row(id)`result
      ensures submissions.Valid()
      ensures submissions.FindById(id).None? ==> trace == old(trace)
      ensures submissions.FindById(id).Some? ==>
                var s := submissions.FindById(id).value;
                var verdict := JudgeCases(ContextOf(s), CasesFor(s));
                && s.status.IsTerminal()
                && s.status == verdict.status
                && s.result == Some(verdict.errorMessage)
                && trace == old(trace) + JudgingEvents(id, ContextOf(s), CasesFor(s))
    {
      var o := JudgeSubmission(id);
      if o.Fail? {
        UpdateSubmissionStatus(id, RuntimeError, Some("Judge error: " + o.error));
      }
    }
  }

  /**
   * Sample problem "Sum of Two Numbers": a program that always prints 0 is
   * rejected with WRONG_ANSWER on the first test case and the second is never run;
   * a program that prints the sums is accepted after both.
   */
  lemma SumOfTwoNumbers()
    ensures var cases := [TestCase(2, "5 3", "8", false, 2), TestCase(3, "10 20", "30", false, 2)];
            var wrong := RunContext(Some(1), "print(0)", "python", 2, 128, (r: RunRequest) => Exited(0, "0\n"));
            var right := RunContext(Some(2), "sum", "python", 2, 128,
                                    (r: RunRequest) => Exited(0, if r.input == "5 3" then "8\n" else "30\n"));
            && JudgeCases(wrong, cases) == JudgeResult(WrongAnswer, "Wrong Answer", false)
            && Executed(wrong, cases) == 1
            && JudgeCases(right, cases) == AcceptedResult
            && Executed(right, cases) == 2
  {
    assert ParseLanguage("python") == Some(Python);
    TrimExamples();
  }
}
