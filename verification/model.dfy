/**
 * The persisted entities: the submission (the only one the core updates in
 * place), and the problem, test case and contest records it refers to.
 */
module Model {
  import opened Wrappers

  /** LocalDateTime, as whole seconds on the server clock. */
  type Timestamp = int

  /** Submission.SubmissionStatus: two working states and six terminal verdicts. */
  datatype SubmissionStatus =
    | Pending
    | Running
    | Accepted
    | WrongAnswer
    | TimeLimitExceeded
    | MemoryLimitExceeded
    | RuntimeError
    | CompilationError
  {
    /** A verdict: every status other than PENDING and RUNNING. */
    predicate IsTerminal() {
      !Pending? && !Running?
    }
  }

  /** The enum constants in declaration order. */
  const AllStatuses: seq<SubmissionStatus> :=
    [Pending, Running, Accepted, WrongAnswer, TimeLimitExceeded,
     MemoryLimitExceeded, RuntimeError, CompilationError]

  /** The enum has exactly eight values, PENDING and RUNNING and six terminal ones. */
  lemma StatusEnumeration(st: SubmissionStatus)
    ensures |AllStatuses| == 8
    ensures forall i, j :: 0 <= i < j < |AllStatuses| ==> AllStatuses[i] != AllStatuses[j]
    ensures st in AllStatuses
    ensures st.IsTerminal() <==> st in AllStatuses[2..]
  {
  }

  /** One input / expected-output pair; `problemId` is the owning problem. */
  datatype TestCase = TestCase(id: int, input: string, expectedOutput: string, isHidden: bool, problemId: int)

  /** A problem with its limits (seconds, MB) and its test cases in stored order. */
  datatype Problem = Problem(
    id: int,
    title: string,
    description: string,
    inputFormat: string,
    outputFormat: string,
    timeLimit: int,
    memoryLimit: int,
    difficulty: int,
    testCases: seq<TestCase>)

  datatype Contest = Contest(
    id: int,
    name: string,
    description: string,
    startTime: Timestamp,
    endTime: Timestamp,
    isActive: bool,
    problems: seq<Problem>)

  /**
   * The @PrePersist rule for `submittedAt`: a missing timestamp becomes `now`,
   * an existing one is kept.
   */
  function StampOnCreate(submittedAt: Option<Timestamp>, now: Timestamp): (r: Option<Timestamp>)
    ensures r.Some?
    ensures submittedAt.Some? ==> r == submittedAt
    ensures submittedAt.None? ==> r == Some(now)
  {
    if submittedAt.None? then Some(now) else submittedAt
  }

  /** Running the hook a second time, at any later instant, changes nothing. */
  lemma StampOnCreateIdempotent(submittedAt: Option<Timestamp>, now: Timestamp, later: Timestamp)
    ensures StampOnCreate(StampOnCreate(submittedAt, now), later) == StampOnCreate(submittedAt, now)
  {
  }

  /** The submission entity. Nullable columns are Options. */
  class Submission {
    var id: Option<int>
    var code: string
    var language: string
    var status: SubmissionStatus
    var result: Option<string>
    var executionTime: Option<int>
    var memoryUsed: Option<int>
    var errorMessage: Option<string>
    var submittedAt: Option<Timestamp>
    var problem: Problem
    var contest: Contest
    var username: string

    /**
     * `new Submission()` followed by the setters for the non-null columns; every
     * other field keeps its Java default, and `status` starts at PENDING.
     */
    constructor (code: string, language: string, problem: Problem, contest: Contest, username: string)
      ensures this.code == code && this.language == language && this.username == username
      ensures this.problem == problem && this.contest == contest
      ensures status == Pending
      ensures id.None? && result.None? && executionTime.None? && memoryUsed.None?
      ensures errorMessage.None? && submittedAt.None?
    {
      id := None;
      this.code := code;
      this.language := language;
      status := Pending;
      result := None;
      executionTime := None;
      memoryUsed := None;
      errorMessage := None;
      submittedAt := None;
      this.problem := problem;
      this.contest := contest;
      this.username := username;
    }

    /** @PrePersist onCreate: sets `submittedAt` only when it is still null. */
    method OnCreate(now: Timestamp)
      modifies this`submittedAt
      ensures submittedAt == StampOnCreate(old(submittedAt), now)
      ensures submittedAt.Some?
      ensures old(submittedAt).Some? ==> submittedAt == old(submittedAt)
    {
      if submittedAt.None? {
        submittedAt := Some(now);
      }
    }
  }
}
