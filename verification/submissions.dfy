/**
 * SubmissionService: accepting a submission into the store and handing it to
 * the judge, and the read side that copies stored submissions into DTOs.
 */
module Submissions {
  import opened Wrappers
  import opened Model
  import opened Repositories

  /** SubmissionRequestDto: what a user posts. */
  datatype SubmissionRequest = SubmissionRequest(
    code: string,
    language: string,
    problemId: int,
    contestId: int,
    username: string)

  /** SubmissionDto: the submission's columns, with the problem and contest by id. */
  datatype SubmissionDto = SubmissionDto(
    id: Option<int>,
    code: string,
    language: string,
    status: SubmissionStatus,
    result: Option<string>,
    executionTime: Option<int>,
    memoryUsed: Option<int>,
    errorMessage: Option<string>,
    submittedAt: Option<Timestamp>,
    problemId: int,
    contestId: int,
    username: string)

  /** convertToSubmissionDto: every column copied, the associations replaced by their ids. */
  function ConvertToSubmissionDto(s: Submission): (d: SubmissionDto)
    reads s
    ensures d.id == s.id && d.code == s.code && d.language == s.language && d.username == s.username
    ensures d.status == s.status && d.result == s.result && d.errorMessage == s.errorMessage
    ensures d.executionTime == s.executionTime && d.memoryUsed == s.memoryUsed
    ensures d.submittedAt == s.submittedAt
    ensures d.problemId == s.problem.id && d.contestId == s.contest.id
  {
    SubmissionDto(s.id, s.code, s.language, s.status, s.result, s.executionTime, s.memoryUsed,
                  s.errorMessage, s.submittedAt, s.problem.id, s.contest.id, s.username)
  }

  /** The stream map of the list getters: one DTO per submission, in order. */
  function ConvertAll(subs: seq<Submission>): (r: seq<SubmissionDto>)
    reads subs
    ensures |r| == |subs|
    ensures forall k :: 0 <= k < |subs| ==> r[k] == ConvertToSubmissionDto(subs[k])
  {
    seq(|subs|, k reads subs requires 0 <= k < |subs| => ConvertToSubmissionDto(subs[k]))
  }

  class SubmissionService {
    const submissions: SubmissionRepository
    /** ProblemRepository.findById, keyed by id. */
    const problems: map<int, Problem>
    /** ContestRepository.findById, keyed by id. */
    const contests: map<int, Contest>
    /** The ids handed to JudgeService.queueSubmission, in order; the judge runs them later. */
    var dispatched: seq<int>

    constructor (submissions: SubmissionRepository, problems: map<int, Problem>, contests: map<int, Contest>)
      ensures this.submissions == submissions && this.problems == problems && this.contests == contests
      ensures dispatched == []
    {
      this.submissions := submissions;
      this.problems := problems;
      this.contests := contests;
      dispatched := [];
    }

    /** getSubmissionById: the stored submission's DTO, or "Submission not found". */
    function GetSubmissionById(submissionId: int): (r: Result<SubmissionDto>)
      reads submissions, submissions.rows
      requires submissions.Valid()
      ensures r.Success? <==> exists i :: 0 <= i < |submissions.rows| && submissions.rows[i].id == Some(submissionId)
      ensures r.Failure? ==> r.error == "Submission not found"
      ensures r.Success? ==> r.value.id == Some(submissionId)
      ensures r.Success? ==> r.value == ConvertToSubmissionDto(submissions.FindById(submissionId).value)
    {
      match submissions.FindById(submissionId)
      case Some(s) => Success(ConvertToSubmissionDto(s))
      case None => Failure("Submission not found")
    }

    /** getSubmissionsByContest: a DTO for every submission to the contest, in store order. */
    function GetSubmissionsByContest(contestId: int): (r: seq<SubmissionDto>)
      reads submissions, submissions.rows
      ensures forall k :: 0 <= k < |r| ==> r[k].contestId == contestId
      ensures forall d :: d in r ==>
                exists i :: 0 <= i < |submissions.rows| && Matches(submissions.rows[i], ByContest(contestId))
                            && d == ConvertToSubmissionDto(submissions.rows[i])
      ensures forall i :: 0 <= i < |submissions.rows| && submissions.rows[i].contest.id == contestId ==>
                ConvertToSubmissionDto(submissions.rows[i]) in r
    {
      ConvertAll(submissions.Find(ByContest(contestId)))
    }

    /** getSubmissionsByUser: a DTO for every submission of the user to the contest, in store order. */
    function GetSubmissionsByUser(username: string, contestId: int): (r: seq<SubmissionDto>)
      reads submissions, submissions.rows
      ensures forall k :: 0 <= k < |r| ==> r[k].contestId == contestId && r[k].username == username
      ensures forall d :: d in r ==>
                exists i :: 0 <= i < |submissions.rows| && Matches(submissions.rows[i], ByContestAndUser(contestId, username))
                            && d == ConvertToSubmissionDto(submissions.rows[i])
      ensures forall i :: 0 <= i < |submissions.rows| && submissions.rows[i].contest.id == contestId
                            && submissions.rows[i].username == username ==>
                ConvertToSubmissionDto(submissions.rows[i]) in r
    {
      ConvertAll(submissions.Find(ByContestAndUser(contestId, username)))
    }

    /** The list getters give each submission once, oldest first. */
    lemma ListsInStoreOrder(contestId: int, username: string)
      requires submissions.Valid()
      ensures var r := GetSubmissionsByContest(contestId);
              forall j, k :: 0 <= j < k < |r| ==> r[j].id.Some? && r[k].id.Some? && r[j].id.value < r[k].id.value
      ensures var r := GetSubmissionsByUser(username, contestId);
              forall j, k :: 0 <= j < k < |r| ==> r[j].id.Some? && r[k].id.Some? && r[j].id.value < r[k].id.value
    {
      submissions.ValidIdsAscending();
      SelectAscending(submissions.rows, ByContest(contestId));
      SelectAscending(submissions.rows, ByContestAndUser(contestId, username));
    }

    /**
     * submitCode: the problem is looked up first, then the contest; either
     * missing fails and nothing is stored or queued. Otherwise a PENDING
     * submission copying the request is saved (getting the next id and
     * `submittedAt = now`), its id is queued for judging exactly once, and its
     * DTO is returned; no stored submission changes.
     */
    method SubmitCode(request: SubmissionRequest, now: Timestamp) returns (r: Result<SubmissionDto>)
      requires submissions.Valid()
      modifies this`dispatched, submissions
      ensures submissions.Valid()
      ensures request.problemId !in problems ==> r == Failure("Problem not found")
      ensures request.problemId in problems && request.contestId !in contests ==> r == Failure("Contest not found")
      ensures r.Success? <==> request.problemId in problems && request.contestId in contests
      ensures r.Failure? ==> submissions.rows == old(submissions.rows) && dispatched == old(dispatched)
      ensures r.Success? ==> |submissions.rows| == |old(submissions.rows)| + 1
      ensures r.Success? ==>
                var n := |submissions.rows|;
                var s := submissions.rows[n - 1];
                && submissions.rows[..n - 1] == old(submissions.rows)
                && fresh(s)
                && s.id == Some(n) && s.status == Pending && s.submittedAt == Some(now)
                && s.code == request.code && s.language == request.language && s.username == request.username
                && s.problem == problems[request.problemId] && s.contest == contests[request.contestId]
                && s.result.None? && s.executionTime.None? && s.memoryUsed.None? && s.errorMessage.None?
                && dispatched == old(dispatched) + [n]
                && r.value == ConvertToSubmissionDto(s)
                && GetSubmissionById(n) == r
    {
      if request.problemId !in problems {
        return Failure("Problem not found");
      }
      var problem := problems[request.problemId];
      if request.contestId !in contests {
        return Failure("Contest not found");
      }
      var contest := contests[request.contestId];
      var s := new Submission(request.code, request.language, problem, contest, request.username);
      submissions.Save(s, now);
      dispatched := dispatched + [s.id.value];
      r := Success(ConvertToSubmissionDto(s));
    }
  }
}
