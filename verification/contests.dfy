/**
 * ContestService: the contest read model (entity-to-DTO conversion) and the
 * leaderboard built from a contest's submissions.
 */
module Contests {
  import opened Wrappers
  import opened Model
  import opened Repositories

  // ----- DTOs -----

  datatype TestCaseDto = TestCaseDto(id: int, input: string, expectedOutput: string, isHidden: bool)

  datatype ProblemDto = ProblemDto(
    id: int,
    title: string,
    description: string,
    inputFormat: string,
    outputFormat: string,
    timeLimit: int,
    memoryLimit: int,
    difficulty: int,
    testCases: seq<TestCaseDto>)

  datatype ContestDto = ContestDto(
    id: int,
    name: string,
    description: string,
    startTime: Timestamp,
    endTime: Timestamp,
    isActive: bool,
    problems: seq<ProblemDto>)

  /** The lambda of convertToProblemDto: every column except the owning problem. */
  function ConvertToTestCaseDto(tc: TestCase): TestCaseDto {
    TestCaseDto(tc.id, tc.input, tc.expectedOutput, tc.isHidden)
  }

  /** convertToProblemDto: the scalar columns, and one DTO per test case in the same order. */
  function ConvertToProblemDto(p: Problem): (d: ProblemDto)
    ensures d.id == p.id && d.title == p.title && d.description == p.description
    ensures d.inputFormat == p.inputFormat && d.outputFormat == p.outputFormat
    ensures d.timeLimit == p.timeLimit && d.memoryLimit == p.memoryLimit && d.difficulty == p.difficulty
    ensures |d.testCases| == |p.testCases|
    ensures forall i :: 0 <= i < |p.testCases| ==> d.testCases[i] == ConvertToTestCaseDto(p.testCases[i])
  {
    ProblemDto(p.id, p.title, p.description, p.inputFormat, p.outputFormat,
               p.timeLimit, p.memoryLimit, p.difficulty,
               seq(|p.testCases|, i requires 0 <= i < |p.testCases| => ConvertToTestCaseDto(p.testCases[i])))
  }

  /** convertToContestDto: the scalar columns, and one DTO per problem in the same order. */
  function ConvertToContestDto(c: Contest): (d: ContestDto)
    ensures d.id == c.id && d.name == c.name && d.description == c.description
    ensures d.startTime == c.startTime && d.endTime == c.endTime && d.isActive == c.isActive
    ensures |d.problems| == |c.problems|
    ensures forall i :: 0 <= i < |c.problems| ==> d.problems[i] == ConvertToProblemDto(c.problems[i])
  {
    ContestDto(c.id, c.name, c.description, c.startTime, c.endTime, c.isActive,
               seq(|c.problems|, i requires 0 <= i < |c.problems| => ConvertToProblemDto(c.problems[i])))
  }

  // The inverse direction: a DTO read back into entities. The test case DTO has
  // no problem column; the owning problem's id supplies it.

  function TestCaseOf(d: TestCaseDto, problemId: int): TestCase {
    TestCase(d.id, d.input, d.expectedOutput, d.isHidden, problemId)
  }

  function ProblemOf(d: ProblemDto): Problem {
    Problem(d.id, d.title, d.description, d.inputFormat, d.outputFormat,
            d.timeLimit, d.memoryLimit, d.difficulty,
            seq(|d.testCases|, i requires 0 <= i < |d.testCases| => TestCaseOf(d.testCases[i], d.id)))
  }

  function ContestOf(d: ContestDto): Contest {
    Contest(d.id, d.name, d.description, d.startTime, d.endTime, d.isActive,
            seq(|d.problems|, i requires 0 <= i < |d.problems| => ProblemOf(d.problems[i])))
  }

  /** Every test case of the problem belongs to it (the problem_id join column). */
  predicate OwnsTestCases(p: Problem) {
    forall i :: 0 <= i < |p.testCases| ==> p.testCases[i].problemId == p.id
  }

  predicate OwnsAllTestCases(c: Contest) {
    forall i :: 0 <= i < |c.problems| ==> OwnsTestCases(c.problems[i])
  }

  /** The problem DTO loses nothing but the join column: reading it back gives the problem. */
  lemma ProblemDtoRoundTrip(p: Problem)
    requires OwnsTestCases(p)
    ensures ProblemOf(ConvertToProblemDto(p)) == p
  {
    var back := ProblemOf(ConvertToProblemDto(p));
    forall i | 0 <= i < |p.testCases| ensures back.testCases[i] == p.testCases[i] {
    }
    assert back.testCases == p.testCases;
  }

  /** The contest DTO loses nothing either. */
  lemma ContestDtoRoundTrip(c: Contest)
    requires OwnsAllTestCases(c)
    ensures ContestOf(ConvertToContestDto(c)) == c
  {
    var back := ContestOf(ConvertToContestDto(c));
    forall i | 0 <= i < |c.problems| ensures back.problems[i] == c.problems[i] {
      ProblemDtoRoundTrip(c.problems[i]);
    }
    assert back.problems == c.problems;
  }

  /** Hence two contests with the same DTO are the same contest. */
  lemma ContestDtoInjective(a: Contest, b: Contest)
    requires OwnsAllTestCases(a) && OwnsAllTestCases(b)
    requires ConvertToContestDto(a) == ConvertToContestDto(b)
    ensures a == b
  {
    ContestDtoRoundTrip(a);
    ContestDtoRoundTrip(b);
  }

  // ----- Leaderboard -----

  /** LeaderboardEntryDto; `totalTime` is in minutes. */
  datatype LeaderboardEntry = LeaderboardEntry(
    username: string,
    solvedProblems: int,
    totalSubmissions: int,
    acceptedSubmissions: int,
    totalTime: int)

  /**
   * Duration.between(from, to).toMinutes() on whole-second instants: the
   * difference in seconds divided by 60, truncated toward zero.
   */
  function MinutesBetween(from: Timestamp, to: Timestamp): (m: int)
    ensures from <= to ==> 0 <= m && m * 60 <= to - from < m * 60 + 60
    ensures to < from ==> m <= 0 && from - to - 60 < -m * 60 <= from - to
  {
    var seconds := to - from;
    if seconds >= 0 then seconds / 60 else -((-seconds) / 60)
  }

  /** Truncation toward zero makes the duration in the other direction the exact negation. */
  lemma MinutesAntisymmetric(a: Timestamp, b: Timestamp)
    ensures MinutesBetween(b, a) == -MinutesBetween(a, b)
  {
  }

  /**
   * The minutes from a submission to `now`. A stored submission always has its
   * timestamp (@PrePersist); the missing case counts nothing.
   */
  function Elapsed(s: Submission, now: Timestamp): (r: int)
    reads s
    ensures s.submittedAt.Some? && s.submittedAt.value <= now ==>
              0 <= r && r * 60 <= now - s.submittedAt.value < r * 60 + 60
    ensures s.submittedAt.Some? && now < s.submittedAt.value ==> r <= 0
    ensures s.submittedAt.None? ==> r == 0
  {
    match s.submittedAt
    case Some(t) => MinutesBetween(t, now)
    case None => 0
  }

  /** The usernames that occur in `subs`. */
  function Users(subs: seq<Submission>): (users: set<string>)
    reads subs
    decreases |subs|
  {
    if subs == [] then {} else Users(subs[..|subs| - 1]) + {subs[|subs| - 1].username}
  }

  /** How many of `subs` belong to `user` (groupingBy(username, counting()), read with getOrDefault 0). */
  function Count(subs: seq<Submission>, user: string): (n: nat)
    reads subs
    ensures n <= |subs|
    decreases |subs|
  {
    if subs == [] then 0
    else Count(subs[..|subs| - 1], user) + (if subs[|subs| - 1].username == user then 1 else 0)
  }

  /** The sum of Elapsed over `user`'s elements of `subs`. */
  function Minutes(subs: seq<Submission>, user: string, now: Timestamp): int
    reads subs
    decreases |subs|
  {
    if subs == [] then 0
    else Minutes(subs[..|subs| - 1], user, now)
         + (if subs[|subs| - 1].username == user then Elapsed(subs[|subs| - 1], now) else 0)
  }

  /** Taking one more element into account. */
  lemma TallyStep(subs: seq<Submission>, i: int, user: string, now: Timestamp)
    requires 0 <= i < |subs|
    ensures Users(subs[..i + 1]) == Users(subs[..i]) + {subs[i].username}
    ensures Count(subs[..i + 1], user) == Count(subs[..i], user) + (if subs[i].username == user then 1 else 0)
    ensures Minutes(subs[..i + 1], user, now)
            == Minutes(subs[..i], user, now) + (if subs[i].username == user then Elapsed(subs[i], now) else 0)
  {
    assert subs[..i + 1][..i] == subs[..i];
  }

  /** The entry of the HashMap for `user` after the accepted submissions `subs`. */
  function Tally(user: string, subs: seq<Submission>, now: Timestamp): LeaderboardEntry
    reads subs
  {
    LeaderboardEntry(user, 0, 0, Count(subs, user), Minutes(subs, user, now))
  }

  /** A user without an element in `subs` has nothing counted. */
  lemma {:induction false} AbsentUserTally(subs: seq<Submission>, user: string, now: Timestamp)
    requires user !in Users(subs)
    ensures Count(subs, user) == 0 && Minutes(subs, user, now) == 0
    decreases |subs|
  {
    if subs != [] {
      AbsentUserTally(subs[..|subs| - 1], user, now);
    }
  }

  /** A user occurs in `subs` exactly when some element is theirs, exactly when their count is positive. */
  lemma {:induction false} UsersCount(subs: seq<Submission>, user: string)
    ensures user in Users(subs) <==> Count(subs, user) > 0
    ensures user in Users(subs) <==> exists i :: 0 <= i < |subs| && subs[i].username == user
    decreases |subs|
  {
    if subs != [] {
      var front := subs[..|subs| - 1];
      UsersCount(front, user);
      if user !in Users(front) && subs[|subs| - 1].username != user {
        forall i | 0 <= i < |subs| ensures subs[i].username != user {
          if i < |front| {
            assert subs[i] == front[i];
          }
        }
      }
      if exists i :: 0 <= i < |front| && front[i].username == user {
        var i :| 0 <= i < |front| && front[i].username == user;
        assert subs[i] == front[i];
      }
    }
  }

  /** A user's accepted submissions in a contest are among their submissions in it. */
  lemma {:induction false} AcceptedAmongAll(subs: seq<Submission>, contestId: int, user: string)
    ensures Count(Select(subs, AcceptedByContest(contestId)), user) <= Count(Select(subs, ByContest(contestId)), user)
    decreases |subs|
  {
    if subs != [] {
      var front := subs[..|subs| - 1];
      var last := subs[|subs| - 1];
      AcceptedAmongAll(front, contestId, user);
      var acc := Select(front, AcceptedByContest(contestId));
      var all := Select(front, ByContest(contestId));
      var accLast := if Matches(last, AcceptedByContest(contestId)) then [last] else [];
      var allLast := if Matches(last, ByContest(contestId)) then [last] else [];
      assert Select(subs, AcceptedByContest(contestId)) == acc + accLast;
      assert Select(subs, ByContest(contestId)) == all + allLast;
      CountAppend(acc, accLast, user);
      CountAppend(all, allLast, user);
    }
  }

  lemma {:induction false} CountAppend(a: seq<Submission>, b: seq<Submission>, user: string)
    requires |b| <= 1
    ensures Count(a + b, user) == Count(a, user) + Count(b, user)
  {
    if b != [] {
      assert (a + b)[..|a + b| - 1] == a;
    } else {
      assert a + b == a;
    }
  }

  /**
   * What the leaderboard says about `user`: solved and accepted both count the
   * user's accepted submissions, total counts all their submissions in the
   * contest, and the time sums the minutes since each accepted submission.
   */
  function Standing(user: string, accepted: seq<Submission>, all: seq<Submission>, now: Timestamp): LeaderboardEntry
    reads accepted, all
  {
    LeaderboardEntry(user, Count(accepted, user), Count(all, user), Count(accepted, user), Minutes(accepted, user, now))
  }

  /** The comparator: more problems solved first, then less total time; ties either way. */
  predicate Precedes(a: LeaderboardEntry, b: LeaderboardEntry) {
    a.solvedProblems > b.solvedProblems
    || (a.solvedProblems == b.solvedProblems && a.totalTime <= b.totalTime)
  }

  /** The comparator is a total preorder. */
  lemma PrecedesTotalPreorder(a: LeaderboardEntry, b: LeaderboardEntry, c: LeaderboardEntry)
    ensures Precedes(a, a)
    ensures Precedes(a, b) || Precedes(b, a)
    ensures Precedes(a, b) && Precedes(b, c) ==> Precedes(a, c)
  {
  }

  predicate Ranked(board: seq<LeaderboardEntry>) {
    forall i, j :: 0 <= i < j < |board| ==> Precedes(board[i], board[j])
  }

  function Names(board: seq<LeaderboardEntry>): set<string> {
    set k | 0 <= k < |board| :: board[k].username
  }

  predicate DistinctNames(board: seq<LeaderboardEntry>) {
    forall i, j :: 0 <= i < j < |board| ==> board[i].username != board[j].username
  }

  /** One step of the sort: `e` goes before the first entry it precedes. */
  function Insert(e: LeaderboardEntry, board: seq<LeaderboardEntry>): (r: seq<LeaderboardEntry>)
    ensures |r| == |board| + 1
    decreases |board|
  {
    if board == [] then [e]
    else if Precedes(e, board[0]) then [e] + board
    else [board[0]] + Insert(e, board[1..])
  }

  /** stream().sorted(comparator): an insertion sort over the comparator. */
  function SortEntries(entries: seq<LeaderboardEntry>): (r: seq<LeaderboardEntry>)
    ensures |r| == |entries|
    decreases |entries|
  {
    if entries == [] then [] else Insert(entries[0], SortEntries(entries[1..]))
  }

  lemma {:induction false} InsertPermutes(e: LeaderboardEntry, board: seq<LeaderboardEntry>)
    ensures multiset(Insert(e, board)) == multiset(board) + multiset{e}
    decreases |board|
  {
    if board != [] && !Precedes(e, board[0]) {
      InsertPermutes(e, board[1..]);
      assert board == [board[0]] + board[1..];
    }
  }

  lemma {:induction false} InsertRanked(e: LeaderboardEntry, board: seq<LeaderboardEntry>)
    requires Ranked(board)
    ensures Ranked(Insert(e, board))
    decreases |board|
  {
    if board == [] {
    } else if Precedes(e, board[0]) {
      forall j | 0 < j < |board| ensures Precedes(e, board[j]) {
        assert Precedes(board[0], board[j]);
      }
      RankedCons(e, board);
    } else {
      var rest := board[1..];
      InsertRanked(e, rest);
      InsertPermutes(e, rest);
      var tail := Insert(e, rest);
      assert Insert(e, board) == [board[0]] + tail;
      forall j | 0 <= j < |tail| ensures Precedes(board[0], tail[j]) {
        var x := tail[j];
        assert x in multiset(tail);
        assert x == e || x in multiset(rest);
        if x != e {
          var k :| 0 <= k < |rest| && rest[k] == x;
          assert board[k + 1] == x;
        }
      }
      RankedCons(board[0], tail);
    }
  }

  /** An entry that precedes every entry of a ranked board heads a ranked board. */
  lemma RankedCons(e: LeaderboardEntry, board: seq<LeaderboardEntry>)
    requires Ranked(board)
    requires forall j :: 0 <= j < |board| ==> Precedes(e, board[j])
    ensures Ranked([e] + board)
  {
    var r := [e] + board;
    forall i, j | 0 <= i < j < |r| ensures Precedes(r[i], r[j]) {
      if i == 0 {
        assert r[j] == board[j - 1];
      } else {
        assert r[i] == board[i - 1] && r[j] == board[j - 1];
      }
    }
  }

  /** The sort orders by the comparator and only reorders. */
  lemma {:induction false} SortEntriesCorrect(entries: seq<LeaderboardEntry>)
    ensures Ranked(SortEntries(entries))
    ensures multiset(SortEntries(entries)) == multiset(entries)
    decreases |entries|
  {
    if entries != [] {
      SortEntriesCorrect(entries[1..]);
      InsertRanked(entries[0], SortEntries(entries[1..]));
      InsertPermutes(entries[0], SortEntries(entries[1..]));
      assert entries == [entries[0]] + entries[1..];
    }
  }

  /** A permutation has the same elements. */
  lemma PermutationMembers(a: seq<LeaderboardEntry>, b: seq<LeaderboardEntry>)
    requires multiset(a) == multiset(b)
    ensures forall k :: 0 <= k < |b| ==> b[k] in a
    ensures forall k :: 0 <= k < |a| ==> a[k] in b
  {
    forall k | 0 <= k < |b| ensures b[k] in a {
      assert b[k] in multiset(b);
    }
    forall k | 0 <= k < |a| ensures a[k] in b {
      assert a[k] in multiset(a);
    }
  }

  /** A permutation keeps the set of names. */
  lemma PermutationKeepsNames(a: seq<LeaderboardEntry>, b: seq<LeaderboardEntry>)
    requires multiset(a) == multiset(b)
    ensures Names(b) == Names(a)
  {
    PermutationMembers(a, b);
    forall u | u in Names(b) ensures u in Names(a) {
      var k :| 0 <= k < |b| && b[k].username == u;
      var p :| 0 <= p < |a| && a[p] == b[k];
    }
    forall u | u in Names(a) ensures u in Names(b) {
      var p :| 0 <= p < |a| && a[p].username == u;
      var k :| 0 <= k < |b| && b[k] == a[p];
    }
  }

  /** A permutation of entries with distinct names has distinct names. */
  lemma PermutationKeepsDistinct(a: seq<LeaderboardEntry>, b: seq<LeaderboardEntry>)
    requires multiset(a) == multiset(b) && DistinctNames(a)
    ensures DistinctNames(b)
  {
    PermutationMembers(a, b);
    forall i, j | 0 <= i < j < |b| ensures b[i].username != b[j].username {
      if b[i].username == b[j].username {
        var p :| 0 <= p < |a| && a[p] == b[i];
        var q :| 0 <= q < |a| && a[q] == b[j];
        assert p == q;
        assert multiset(b)[b[i]] >= 2 by {
          assert b == b[..j] + b[j..];
          assert b[..j][i] == b[i];
          assert b[j..][0] == b[i];
        }
        DistinctCountsOne(a, p);
        assert false;
      }
    }
  }

  /** A permutation of standings consists of standings. */
  lemma PermutationKeepsStandings(a: seq<LeaderboardEntry>, b: seq<LeaderboardEntry>,
                                  accepted: seq<Submission>, all: seq<Submission>, now: Timestamp)
    requires multiset(a) == multiset(b)
    requires forall k :: 0 <= k < |a| ==> a[k] == Standing(a[k].username, accepted, all, now)
    ensures forall k :: 0 <= k < |b| ==> b[k] == Standing(b[k].username, accepted, all, now)
  {
    PermutationMembers(a, b);
  }

  lemma DistinctCountsOne(a: seq<LeaderboardEntry>, p: int)
    requires DistinctNames(a) && 0 <= p < |a|
    ensures multiset(a)[a[p]] == 1
  {
    assert a == a[..p] + [a[p]] + a[p + 1..];
    assert a[p] !in a[..p];
    assert a[p] !in a[p + 1..];
  }

  /** Appending an entry for a new name to a board of standings. */
  lemma AppendEntry(values: seq<LeaderboardEntry>, entry: LeaderboardEntry,
                    accepted: seq<Submission>, all: seq<Submission>, now: Timestamp)
    requires DistinctNames(values) && entry.username !in Names(values)
    requires forall k :: 0 <= k < |values| ==> values[k] == Standing(values[k].username, accepted, all, now)
    requires entry == Standing(entry.username, accepted, all, now)
    ensures Names(values + [entry]) == Names(values) + {entry.username}
    ensures DistinctNames(values + [entry])
    ensures forall k :: 0 <= k < |values| + 1 ==>
              (values + [entry])[k] == Standing((values + [entry])[k].username, accepted, all, now)
  {
    var r := values + [entry];
    assert forall k :: 0 <= k < |values| ==> r[k] == values[k];
    assert r[|values|] == entry;
  }

  /**
   * The body of getLeaderboard once both queries have run: tally the accepted
   * submissions per user, complete each entry from all of the contest's
   * submissions, and sort.
   */
  method RankStandings(accepted: seq<Submission>, all: seq<Submission>, now: Timestamp)
    returns (board: seq<LeaderboardEntry>)
    ensures Names(board) == Users(accepted)
    ensures DistinctNames(board)
    ensures forall k :: 0 <= k < |board| ==> board[k] == Standing(board[k].username, accepted, all, now)
    ensures Ranked(board)
  {
    var entries := TallyAccepted(accepted, now);
    var values := CompleteEntries(entries, accepted, all, now);
    board := SortEntries(values);
    SortedBoard(values, accepted, all, now);
  }

  /** Sorting the completed entries ranks them and keeps everything else. */
  lemma SortedBoard(values: seq<LeaderboardEntry>, accepted: seq<Submission>, all: seq<Submission>, now: Timestamp)
    requires DistinctNames(values)
    requires forall k :: 0 <= k < |values| ==> values[k] == Standing(values[k].username, accepted, all, now)
    ensures var board := SortEntries(values);
            && Names(board) == Names(values)
            && DistinctNames(board)
            && (forall k :: 0 <= k < |board| ==> board[k] == Standing(board[k].username, accepted, all, now))
            && Ranked(board)
  {
    var board := SortEntries(values);
    SortEntriesCorrect(values);
    PermutationKeepsNames(values, board);
    PermutationKeepsDistinct(values, board);
    PermutationKeepsStandings(values, board, accepted, all, now);
  }

  /**
   * The first loop of getLeaderboard: for each accepted submission, the user's
   * entry is created with zeros if absent, its accepted count goes up by one and
   * the minutes since the submission are added to its time.
   */
  method TallyAccepted(accepted: seq<Submission>, now: Timestamp) returns (entries: map<string, LeaderboardEntry>)
    ensures entries.Keys == Users(accepted)
    ensures forall u :: u in entries ==> entries[u] == Tally(u, accepted, now)
  {
    entries := map[];
    var i := 0;
    while i < |accepted|
      invariant 0 <= i <= |accepted|
      invariant entries.Keys == Users(accepted[..i])
      invariant forall u :: u in entries ==> entries[u] == Tally(u, accepted[..i], now)
    {
      var s := accepted[i];
      if s.username !in entries {
        AbsentUserTally(accepted[..i], s.username, now);
      }
      var entry := if s.username in entries then entries[s.username]
                   else LeaderboardEntry(s.username, 0, 0, 0, 0);
      entry := entry.(acceptedSubmissions := entry.acceptedSubmissions + 1);
      entry := entry.(totalTime := entry.totalTime + Elapsed(s, now));
      ghost var before := entries;
      entries := entries[s.username := entry];
      forall u | u in entries ensures entries[u] == Tally(u, accepted[..i + 1], now) {
        TallyStep(accepted, i, u, now);
        if u != s.username {
          assert entries[u] == before[u];
        }
      }
      TallyStep(accepted, i, s.username, now);
      i := i + 1;
    }
    assert accepted[..i] == accepted;
  }

  /**
   * The second loop of getLeaderboard and the stream over the map's values:
   * each entry gets the user's total submissions in the contest (0 when none)
   * and solved := accepted; the values come out in the map's own order.
   */
  method CompleteEntries(entries: map<string, LeaderboardEntry>, accepted: seq<Submission>,
                         all: seq<Submission>, now: Timestamp) returns (values: seq<LeaderboardEntry>)
    requires forall u :: u in entries ==> entries[u] == Tally(u, accepted, now)
    ensures Names(values) == entries.Keys
    ensures DistinctNames(values)
    ensures forall k :: 0 <= k < |values| ==> values[k] == Standing(values[k].username, accepted, all, now)
  {
    var pending := entries.Keys;
    values := [];
    while pending != {}
      invariant pending <= entries.Keys
      invariant Names(values) == entries.Keys - pending
      invariant DistinctNames(values)
      invariant forall k :: 0 <= k < |values| ==> values[k] == Standing(values[k].username, accepted, all, now)
      decreases |pending|
    {
      var u :| u in pending;
      var entry := entries[u];
      entry := entry.(totalSubmissions := Count(all, u));
      entry := entry.(solvedProblems := entry.acceptedSubmissions);
      AppendEntry(values, entry, accepted, all, now);
      values := values + [entry];
      pending := pending - {u};
    }
  }

  class ContestService {
    const submissions: SubmissionRepository
    /** ContestRepository.findByIdWithProblems, keyed by id. */
    const contests: map<int, Contest>

    /** The repository keys every contest by its own id. */
    ghost predicate Valid() {
      forall k :: k in contests ==> contests[k].id == k
    }

    constructor (submissions: SubmissionRepository, contests: map<int, Contest>)
      requires forall k :: k in contests ==> contests[k].id == k
      ensures this.submissions == submissions && this.contests == contests
      ensures Valid()
    {
      this.submissions := submissions;
      this.contests := contests;
    }

    /** getContestById: the contest's DTO, or "Contest not found". */
    function GetContestById(contestId: int): (r: Result<ContestDto>)
      requires Valid()
      ensures r.Failure? <==> contestId !in contests
      ensures r.Failure? ==> r.error == "Contest not found"
      ensures r.Success? ==> r.value == ConvertToContestDto(contests[contestId]) && r.value.id == contestId
    {
      if contestId in contests then Success(ConvertToContestDto(contests[contestId]))
      else Failure("Contest not found")
    }

    /** A found contest's DTO reads back as the stored contest. */
    lemma GetContestByIdRoundTrip(contestId: int)
      requires Valid()
      requires contestId in contests && OwnsAllTestCases(contests[contestId])
      ensures GetContestById(contestId).Success?
      ensures ContestOf(GetContestById(contestId).value) == contests[contestId]
    {
      ContestDtoRoundTrip(contests[contestId]);
    }

    /**
     * getLeaderboard: one entry per user with an accepted submission in the
     * contest, each with the counts and minutes of Standing, ranked by the
     * comparator. `now` is the instant the leaderboard is computed.
     */
    method GetLeaderboard(contestId: int, now: Timestamp) returns (board: seq<LeaderboardEntry>)
      requires submissions.Valid()
      ensures var accepted := submissions.Find(AcceptedByContest(contestId));
              && Names(board) == Users(accepted)
              && DistinctNames(board)
              && (forall k :: 0 <= k < |board| ==>
                    board[k] == Standing(board[k].username, accepted, submissions.Find(ByContest(contestId)), now))
              && Ranked(board)
    {
      var accepted := submissions.Find(AcceptedByContest(contestId));
      var all := submissions.Find(ByContest(contestId));
      board := RankStandings(accepted, all, now);
    }
  }
}
