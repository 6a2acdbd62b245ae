# onlineJudge core, modelled in Dafny

This project models the server side of the onlineJudge contest platform.

- **Submitting code.** A user posts code for a problem of a contest. `SubmissionService.submitCode` checks that the problem and the contest exist. It stores a PENDING submission, which gets the next id and its `submittedAt` from the `@PrePersist` hook. It hands the id to the judge and returns the submission's DTO.
- **Judging.** `JudgeService.queueSubmission` runs `judgeSubmission`:
  - The submission is marked RUNNING.
  - Its problem's test cases run one after another in a Docker sandbox: the source file name and the shell command depend on the language (java, python or cpp, in any case).
  - Judging stops at the first test case that is not ACCEPTED, and that verdict is written back. When every test case passes, "Accepted" is written.
  - One run's verdict is TIME_LIMIT_EXCEEDED, RUNTIME_ERROR (a nonzero exit code, or an exception), WRONG_ANSWER, or ACCEPTED when the trimmed output equals the trimmed expected output.
- **Reading contests.** `ContestService` turns contests and problems into DTOs and builds the leaderboard:
  - there is one entry per user with an accepted submission in the contest;
  - an entry counts the user's accepted submissions as both solved and accepted, counts all of the user's submissions to the contest, and sums the minutes from each accepted submission to the present;
  - entries are sorted by solved problems, descending, then by total time, ascending.
- **Reading submissions.** `SubmissionService` returns submissions as DTOs: by id, by contest, or by contest and user.

The modules follow the program:

- `Model`: the entities. `Submission` is a class because the services update its fields in place. Problems, test cases and contests are datatypes.
- `Repositories`: the submission store as a class over a sequence of entities, with its derived queries.
- `Text`: the parts of `String` and `Integer` that the judge relies on.
- `Judging`: JudgeService.
- `Contests`: ContestService.
- `Submissions`: SubmissionService.
- `Wrappers`: `Option`, and `Result`/`Outcome` for the exceptions the services throw.

How the outside world is modelled:

- **Sandbox.** The Docker sandbox is an oracle `RunRequest -> RunOutcome` held by the judge.
- **Trace.** A ghost trace records every status write and every sandbox run in order. The contracts use it to state that RUNNING is written before any run, that test cases run in order, and that judging stops at the first rejection.
- **Clock.** The clock (`LocalDateTime.now()`) is the parameter `now`.
- **Hand-off to the judge.** The asynchronous call is the list `dispatched` of ids handed to the judge. `QueueSubmission` is the body the executor later runs.

## Model

| member | source | states |
|---|---|---|
| Model.StatusEnumeration | backend/src/main/java/com/example/onlinejudge/model/Submission.java:64-67 | The status enum has exactly eight distinct values; a status is terminal exactly when it is neither PENDING nor RUNNING |
| Model.StampOnCreate | backend/src/main/java/com/example/onlinejudge/model/Submission.java:57-62 | After the hook a timestamp is always present; an existing one is kept, a missing one becomes `now` |
| Model.StampOnCreateIdempotent | backend/src/main/java/com/example/onlinejudge/model/Submission.java:57-62 | Running the hook again at any later instant changes nothing |
| Model.Submission.OnCreate | backend/src/main/java/com/example/onlinejudge/model/Submission.java:57-62 | The method updates only `submittedAt`, as the stamping rule says: the field is set afterwards and an existing value is untouched |
| Model.Submission.constructor | onlinejudge/src/main/java/com/example/onlinejudge/service/SubmissionService.java:33-39 | A new submission copies code, language, problem, contest and username, starts PENDING, and every nullable column is empty |
| Repositories.Select | onlinejudge/src/main/java/com/example/onlinejudge/repository/SubmissionRepository.java:16-28 | A derived query returns only stored rows that match it, and every matching stored row is among them |
| Repositories.SelectAscending | onlinejudge/src/main/java/com/example/onlinejudge/repository/SubmissionRepository.java:22 | Query results keep the store's order: ids strictly increase |
| Repositories.SubmissionRepository.FindById | onlinejudge/src/main/java/com/example/onlinejudge/repository/SubmissionRepository.java:14 | findById finds a row exactly when some stored row has that id; the row found carries the id and is the only row the id can reach |
| Repositories.SubmissionRepository.Save | onlinejudge/src/main/java/com/example/onlinejudge/service/SubmissionService.java:41 | Saving a new entity appends it with the next id, applies the @PrePersist rule, and keeps the store's id and timestamp invariant |
| Text.TrimShape | backend/src/main/java/com/example/onlinejudge/service/JudgeService.java:110-111 | trim returns a slice of its input with only blanks (code <= U+0020) cut away on each side and a non-blank character at each end |
| Text.TrimUnique | backend/src/main/java/com/example/onlinejudge/service/JudgeService.java:110-111 | Any slice with only blanks cut away and non-blank ends is the trim: the comparison ignores blanks at the edges and nothing inside |
| Text.TrimIdempotent | backend/src/main/java/com/example/onlinejudge/service/JudgeService.java:110-111 | Trimming a trimmed output changes nothing |
| Text.LowerChar | backend/src/main/java/com/example/onlinejudge/service/JudgeService.java:129 | Capital ASCII letters become small letters, 32 code points up; every other character is kept |
| Text.LowerAscii | backend/src/main/java/com/example/onlinejudge/service/JudgeService.java:129 | Lower-casing keeps the length and lower-cases each character in place |
| Text.LowerAsciiIdempotent | backend/src/main/java/com/example/onlinejudge/service/JudgeService.java:150 | Lower-casing twice is lower-casing once |
| Text.RemoveAllTrailing | backend/src/main/java/com/example/onlinejudge/service/JudgeService.java:135 | Replacing ".java" with "" in `name.java` gives back `name`, provided the name has no dot |
| Text.IntToStringRoundTrip | backend/src/main/java/com/example/onlinejudge/service/JudgeService.java:106 | The decimal text of an integer parses back to that integer |
| Text.IntToStringInjective | backend/src/main/java/com/example/onlinejudge/service/JudgeService.java:106 | Different integers have different decimal texts |
| Judging.ParseLanguageNames | backend/src/main/java/com/example/onlinejudge/service/JudgeService.java:149-159 | A language is recognised as java, python or cpp exactly when its lower-cased name is that word |
| Judging.ParseLanguageName | backend/src/main/java/com/example/onlinejudge/service/JudgeService.java:151-156 | Each of the three case labels selects its own language |
| Judging.ParseLanguageIgnoresCase | backend/src/main/java/com/example/onlinejudge/service/JudgeService.java:150 | The language switch does not depend on letter case |
| Judging.ParseLanguageExamples | backend/src/main/java/com/example/onlinejudge/service/JudgeService.java:149-159 | "Java", "PYTHON" and "CPP" are accepted; "c++" is not |
| Judging.GetFileName | backend/src/main/java/com/example/onlinejudge/service/JudgeService.java:149-160 | A file name exists exactly for the three languages: Solution.java for java, solution.py for python and solution.cpp for cpp. Otherwise the error is "Unsupported language: " plus the language as given |
| Judging.BuildDockerCommand | backend/src/main/java/com/example/onlinejudge/service/JudgeService.java:127-147 | A command exists exactly for the three languages. Otherwise the error quotes the lower-cased language |
| Judging.CommandRedirects | backend/src/main/java/com/example/onlinejudge/service/JudgeService.java:133-143 | Every command starts with `cd /workspace && ` and ends with `< input > output` |
| Judging.JavaRunsClass | backend/src/main/java/com/example/onlinejudge/service/JudgeService.java:133-137 | For `name.java`, javac compiles that file, and java then runs the class `name` |
| Judging.JavaCommand | backend/src/main/java/com/example/onlinejudge/service/JudgeService.java:133-137 | For java the command is `cd /workspace && javac F && java C < I > O`, where C is the file name F without `.java` |
| Judging.PythonCommand | backend/src/main/java/com/example/onlinejudge/service/JudgeService.java:138-140 | For python the command is `cd /workspace && python F < I > O` |
| Judging.CppCommand | backend/src/main/java/com/example/onlinejudge/service/JudgeService.java:141-143 | For cpp the command is `cd /workspace && g++ -o main F && ./main < I > O` |
| Judging.DockerArgs | backend/src/main/java/com/example/onlinejudge/service/JudgeService.java:82-88 | The container is removed afterwards, gets the problem's memory limit in MB, one CPU and no network, and runs the command as the last argument |
| Judging.ExecutionFailure | backend/src/main/java/com/example/onlinejudge/service/JudgeService.java:120-124 | An exception during a run is a RUNTIME_ERROR that is not accepted, with the message "Execution error: " plus the exception's message |
| Judging.Verdict | backend/src/main/java/com/example/onlinejudge/service/JudgeService.java:96-118 | Every verdict is terminal, and it is accepted exactly when its status is ACCEPTED. It is accepted exactly when the process finished with exit code 0 and the trimmed outputs are equal, and then it is "Accepted". Exit code 0 with different trimmed outputs is WRONG_ANSWER "Wrong Answer"; a nonzero exit code N is RUNTIME_ERROR "Runtime error (exit code: N)"; an exception is ExecutionFailure of its message |
| Judging.TimeoutVerdict | backend/src/main/java/com/example/onlinejudge/service/JudgeService.java:96-100 | A run past the time limit is TIME_LIMIT_EXCEEDED, whatever the expected output |
| Judging.RuntimeErrorNamesExitCode | backend/src/main/java/com/example/onlinejudge/service/JudgeService.java:102-107 | A nonzero exit is RUNTIME_ERROR and the output is not looked at. Two different exit codes never give the same message |
| Judging.OutputComparisonExamples | backend/src/main/java/com/example/onlinejudge/service/JudgeService.java:110-118 | A trailing newline or space is ignored, but a newline inside the output is a wrong answer |
| Judging.PlannedRun | backend/src/main/java/com/example/onlinejudge/service/JudgeService.java:69-93 | A process is started exactly for a supported language, with the test's input, the submission's code and the problem's limits. The code goes to getFileName's file, and the command is the language's command on that file, input.txt and output.txt. Otherwise the error names the language |
| Judging.ExecuteResult | backend/src/main/java/com/example/onlinejudge/service/JudgeService.java:66-125 | One test case's result is terminal and agrees with its accepted flag. An unsupported language gives "Execution error: Unsupported language: ..." |
| Judging.ExecuteResultVerdict | backend/src/main/java/com/example/onlinejudge/service/JudgeService.java:79-118 | For a supported language, one test case's result is the verdict on the sandbox's outcome for the planned run, against the test's expected output |
| Judging.SandboxIsolation | backend/src/main/java/com/example/onlinejudge/service/JudgeService.java:82-88 | The planned run's `docker run` arguments remove the container, pass the problem's memory limit in MB, one CPU and no network, and end with the language's command on code file, input.txt and output.txt |
| Judging.JudgedByOutputs | backend/src/main/java/com/example/onlinejudge/service/JudgeService.java:47-57 | A submission is accepted exactly when, for every test case, the language is supported and the sandbox run exits with 0 and prints the expected output up to surrounding white space; with no test cases any language is accepted |
| Judging.RunsInOrder | backend/src/main/java/com/example/onlinejudge/service/JudgeService.java:47-48 | Executing test cases one after another starts one sandbox run per test case, in order, each with that test case's input. An unsupported language starts none |
| Judging.JudgeCases | backend/src/main/java/com/example/onlinejudge/service/JudgeService.java:47-57 | The overall verdict is always terminal and agrees with its accepted flag |
| Judging.JudgeStep | backend/src/main/java/com/example/onlinejudge/service/JudgeService.java:47-54 | An accepted test case passes judging on to the rest. A rejected one ends judging with its own result after exactly one run |
| Judging.AcceptedIffAllPass | backend/src/main/java/com/example/onlinejudge/service/JudgeService.java:47-57 | A submission is accepted exactly when every test case is accepted, an empty list included; it is then "Accepted" and all test cases ran |
| Judging.FirstRejectionReported | backend/src/main/java/com/example/onlinejudge/service/JudgeService.java:47-54 | A rejection is the result of the last test case executed. Every earlier test case was accepted, and no later one runs |
| Judging.CasesOf | onlinejudge/src/main/java/com/example/onlinejudge/repository/TestCaseRepository.java:12 | findByProblemId returns exactly the stored test cases of that problem, in store order, and no more than are stored |
| Judging.CasesOfAscending | onlinejudge/src/main/java/com/example/onlinejudge/repository/TestCaseRepository.java:12 | When the store's ids ascend, the test cases of one problem come back with ascending ids |
| Judging.JudgeService.UpdateSubmissionStatus | backend/src/main/java/com/example/onlinejudge/service/JudgeService.java:162-170 | An unknown id changes nothing. Otherwise only the status and result of that one row are overwritten, and the write is recorded |
| Judging.JudgeService.RunSandbox | backend/src/main/java/com/example/onlinejudge/service/JudgeService.java:90-94 | The process's outcome is the sandbox's answer to the request, and exactly that run is recorded |
| Judging.JudgeService.ExecuteCode | backend/src/main/java/com/example/onlinejudge/service/JudgeService.java:66-125 | The result is the test case's verdict; exactly one sandbox run is recorded for a supported language, none otherwise |
| Judging.JudgeService.RunTestCases | backend/src/main/java/com/example/onlinejudge/service/JudgeService.java:47-57 | The loop returns the first rejection or "Accepted". It starts exactly the runs up to and including the first rejection |
| Judging.JudgeService.JudgeSubmission | backend/src/main/java/com/example/onlinejudge/service/JudgeService.java:38-64 | An unknown id fails with "Submission not found" and nothing happens. Otherwise, in order: RUNNING is written, the runs happen, and the final verdict is written and left in the row |
| Judging.JudgeService.QueueSubmission | backend/src/main/java/com/example/onlinejudge/service/JudgeService.java:26-36 | A stored submission always ends with a terminal status, namely the verdict of its test cases. The failure for an unknown id writes nothing |
| Judging.SumOfTwoNumbers | onlinejudge/src/main/java/com/example/onlinejudge/service/DataInitializer.java:53-79 | On the sample problem, a program that prints 0 gets WRONG_ANSWER after one run; a correct one is accepted after both runs |
| Contests.ConvertToProblemDto | backend/src/main/java/com/example/onlinejudge/service/ContestService.java:85-101 | The DTO carries the problem's columns and one test-case DTO per test case, in order |
| Contests.ConvertToContestDto | backend/src/main/java/com/example/onlinejudge/service/ContestService.java:69-83 | The DTO carries the contest's columns and one problem DTO per problem, in order |
| Contests.ProblemDtoRoundTrip | backend/src/main/java/com/example/onlinejudge/service/ContestService.java:85-101 | A problem DTO loses nothing but the test cases' join column: reading it back gives the problem |
| Contests.ContestDtoRoundTrip | backend/src/main/java/com/example/onlinejudge/service/ContestService.java:69-83 | Reading a contest DTO back gives the contest |
| Contests.ContestDtoInjective | backend/src/main/java/com/example/onlinejudge/service/ContestService.java:69-83 | Different contests have different DTOs |
| Contests.ContestService.GetContestById | backend/src/main/java/com/example/onlinejudge/service/ContestService.java:25-30 | The lookup fails with "Contest not found" exactly when no contest has the id; otherwise it returns that contest's DTO, whose id is the id asked for |
| Contests.ContestService.GetContestByIdRoundTrip | backend/src/main/java/com/example/onlinejudge/service/ContestService.java:25-30 | The DTO returned for a stored contest reads back to that contest |
| Contests.MinutesBetween | backend/src/main/java/com/example/onlinejudge/service/ContestService.java:45-46 | toMinutes counts the whole minutes between two instants, truncated toward zero in both directions |
| Contests.Elapsed | backend/src/main/java/com/example/onlinejudge/service/ContestService.java:45 | An accepted submission stored at or before `now` contributes the whole minutes since it was stored, and never a negative number |
| Contests.MinutesAntisymmetric | backend/src/main/java/com/example/onlinejudge/service/ContestService.java:45-46 | The duration in the other direction is the exact negation |
| Contests.AbsentUserTally | backend/src/main/java/com/example/onlinejudge/service/ContestService.java:55 | A user with no submissions counts zero submissions and zero minutes (getOrDefault 0) |
| Contests.UsersCount | backend/src/main/java/com/example/onlinejudge/service/ContestService.java:37-40 | A user gets an entry exactly when one of the submissions is theirs, exactly when their count is positive |
| Contests.AcceptedAmongAll | backend/src/main/java/com/example/onlinejudge/service/ContestService.java:50-56 | A user's accepted count never exceeds their total count in the contest |
| Contests.PrecedesTotalPreorder | backend/src/main/java/com/example/onlinejudge/service/ContestService.java:60-65 | The comparator is reflexive, total and transitive |
| Contests.InsertRanked | backend/src/main/java/com/example/onlinejudge/service/ContestService.java:59-66 | Inserting into a ranked list keeps it ranked |
| Contests.SortEntriesCorrect | backend/src/main/java/com/example/onlinejudge/service/ContestService.java:59-66 | The sort returns the entries ranked by the comparator and as a permutation of its input |
| Contests.SortedBoard | backend/src/main/java/com/example/onlinejudge/service/ContestService.java:59-66 | Sorting keeps the set of users, their distinctness and every entry's figures, and ranks them |
| Contests.TallyAccepted | backend/src/main/java/com/example/onlinejudge/service/ContestService.java:35-47 | The map has a key exactly for each user with an accepted submission. Each value counts that user's accepted submissions and sums their minutes |
| Contests.CompleteEntries | backend/src/main/java/com/example/onlinejudge/service/ContestService.java:50-57 | One entry per map key, each user once. Each entry holds the user's total, accepted and solved counts and their minutes |
| Contests.RankStandings | backend/src/main/java/com/example/onlinejudge/service/ContestService.java:35-66 | Given both query results: one entry per user with an accepted submission, each user once, each with their standing, ranked |
| Contests.ContestService.GetLeaderboard | backend/src/main/java/com/example/onlinejudge/service/ContestService.java:32-67 | The leaderboard lists exactly the users with an accepted submission in the contest, each once, with the figures above. It is ranked by solved problems descending, then by time ascending |
| Submissions.ConvertToSubmissionDto | onlinejudge/src/main/java/com/example/onlinejudge/service/SubmissionService.java:70-85 | The DTO carries every column of the submission unchanged, with the problem and the contest given by id |
| Submissions.ConvertAll | onlinejudge/src/main/java/com/example/onlinejudge/service/SubmissionService.java:58-60 | The list conversion gives one DTO per submission, in the same order |
| Submissions.SubmissionService.GetSubmissionById | onlinejudge/src/main/java/com/example/onlinejudge/service/SubmissionService.java:49-54 | The lookup succeeds exactly when a stored submission has the id, and returns the DTO of that stored submission, which has that id. Otherwise it fails with "Submission not found" |
| Submissions.SubmissionService.GetSubmissionsByContest | onlinejudge/src/main/java/com/example/onlinejudge/service/SubmissionService.java:56-61 | Every DTO returned is the DTO of a stored submission of the contest, and every stored submission of the contest is returned |
| Submissions.SubmissionService.GetSubmissionsByUser | onlinejudge/src/main/java/com/example/onlinejudge/service/SubmissionService.java:63-68 | Every DTO returned is the DTO of a stored submission of the contest and the user, and every stored submission of both is returned |
| Submissions.SubmissionService.ListsInStoreOrder | onlinejudge/src/main/java/com/example/onlinejudge/service/SubmissionService.java:56-68 | Both lists give each submission once, oldest first, with strictly increasing ids |
| Submissions.SubmissionService.SubmitCode | onlinejudge/src/main/java/com/example/onlinejudge/service/SubmissionService.java:24-47 | The problem is checked before the contest, and a missing one fails with its own message, storing and queuing nothing. Otherwise one PENDING submission copying the request is appended with the next id and `submittedAt = now`, no stored row changes, and its id is queued once. The result is its DTO, which getSubmissionById then returns |

## Left out

- Docker, the file system and the process API are not modelled. One run is an oracle from the request (file name, code, input, command, limits) to its outcome: timed out, exited with a code and an output, or threw. The temporary directory's path is not modelled beyond its `judge_<id>` prefix. The `destroyForcibly` of a timed-out process is not modelled either.
- `@Async` and `CompletableFuture`: the asynchronous hand-off is the list of dispatched ids. When the executor runs the judge, relative to other requests, is not modelled.
- `@Transactional`, the JPA persistence context and lazy loading are not modelled. Entities are objects in one heap; a save writes through.
- Repository and database exceptions are not modelled. The "Execution error" catch of judgeSubmission (JudgeService.java lines 59-63) therefore has no counterpart: nothing in the modelled loop throws. Exceptions inside executeCode (file system, process) are the oracle's "threw" outcome.
- Judging.JudgeService.QueueSubmission: the `log.error` calls are not modelled, and neither is anything the logger does.
- Java `int`/`long` overflow of the leaderboard counters and minute sums is not modelled; the counts are unbounded integers.
- `LocalDateTime` is whole seconds on one clock. Sub-second precision and `Duration`'s nanosecond part are not modelled.
- Text.LowerAscii: `String.toLowerCase` is modelled on ASCII letters only. Locale-specific and non-ASCII case mappings are not modelled. The three language names are ASCII, so which languages are accepted is unaffected.
- Contests.Elapsed: a submission without `submittedAt` counts 0 minutes, where Java would throw. Every stored row has a timestamp (the store invariant), so the case does not arise for stored submissions.
- Contests.ContestService.GetLeaderboard: the order among entries that tie on both keys is not specified. The HashMap's iteration order decides it in Java, and the `ORDER BY submittedAt` of the accepted query cannot change counts or sums. Queries return rows in the store's id order.
- Nullable strings of the DTOs and entities (code, username, language) are plain strings. Only `submittedAt` is checked for null by the code (Submission.java line 59). The result, the execution time, the memory used and the error message are Options because they are columns a new submission leaves empty.
- A test case names its problem by id (`problemId`) rather than by an object link. A problem has no link to its contest; a contest holds its problems. A submission holds copies of its problem and contest records, not shared objects.
- Judging.BuildDockerCommand: each language's command is stated as a format string over the code, input and output file names (JavaCommand, PythonCommand, CppCommand). The line with the literal file names filled in is not stated as one string.
- Contests.ContestService.GetLeaderboard: Java reads the clock (`LocalDateTime.now()`) once per accepted submission, inside the loop; the model uses one `now` for all of them, so the few seconds that pass during the loop are not modelled.
- Judging.JudgeService.ExecuteCode: executeCode creates the `judge_<id>` temporary directory before it checks the language, and it never deletes it. The file system is not modelled, so neither the directory nor its leak is.
- Frontend pages, controllers, other repositories' queries and DataInitializer's seeding are not part of this model. DataInitializer's sample problem is used only as an example.
