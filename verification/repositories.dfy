/**
 * SubmissionRepository: the store of submission entities, in insertion order,
 * and the derived queries the services use.
 */
module Repositories {
  import opened Wrappers
  import opened Model

  /** The derived query methods of SubmissionRepository. */
  datatype Query =
    | ByContest(contestId: int)
    | AcceptedByContest(contestId: int)
    | ByContestAndUser(contestId: int, username: string)

  predicate Matches(s: Submission, q: Query)
    reads s
  {
    match q
    case ByContest(cid) => s.contest.id == cid
    case AcceptedByContest(cid) => s.contest.id == cid && s.status == Accepted
    case ByContestAndUser(cid, user) => s.contest.id == cid && s.username == user
  }

  /** Every element has an id and the ids strictly increase (the store's own order). */
  ghost predicate IdsAscending(subs: seq<Submission>)
    reads subs
  {
    && (forall i :: 0 <= i < |subs| ==> subs[i].id.Some?)
    && (forall i, j :: 0 <= i < j < |subs| ==> subs[i].id.value < subs[j].id.value)
  }

  /** The rows that satisfy `q`, in the order they are stored. */
  function Select(subs: seq<Submission>, q: Query): (r: seq<Submission>)
    reads subs
    ensures |r| <= |subs|
    ensures forall k :: 0 <= k < |r| ==> r[k] in subs && Matches(r[k], q)
    ensures forall k :: 0 <= k < |subs| && Matches(subs[k], q) ==> subs[k] in r
    decreases |subs|
  {
    if subs == [] then []
    else
      var front := subs[..|subs| - 1];
      var last := subs[|subs| - 1];
      assert forall k :: 0 <= k < |front| ==> subs[k] == front[k];
      Select(front, q) + (if Matches(last, q) then [last] else [])
  }

  /** Appending a row whose id exceeds every id so far keeps the ids ascending. */
  lemma AppendAscending(sel: seq<Submission>, last: Submission)
    requires IdsAscending(sel) && last.id.Some?
    requires forall m :: 0 <= m < |sel| ==> sel[m].id.value < last.id.value
    ensures IdsAscending(sel + [last])
  {
    var r := sel + [last];
    forall i, j | 0 <= i < j < |r| ensures r[i].id.value < r[j].id.value {
      assert r[i] == sel[i];
      if j < |sel| {
        assert r[j] == sel[j];
      }
    }
  }

  /** Selecting keeps the store's order. */
  lemma {:induction false} SelectAscending(subs: seq<Submission>, q: Query)
    requires IdsAscending(subs)
    ensures IdsAscending(Select(subs, q))
    decreases |subs|
  {
    if subs != [] {
      var front := subs[..|subs| - 1];
      var last := subs[|subs| - 1];
      assert forall k :: 0 <= k < |front| ==> front[k] == subs[k];
      SelectAscending(front, q);
      var sel := Select(front, q);
      if Matches(last, q) {
        forall m | 0 <= m < |sel| ensures sel[m].id.value < last.id.value {
          var k :| 0 <= k < |front| && front[k] == sel[m];
        }
        AppendAscending(sel, last);
        assert Select(subs, q) == sel + [last];
      } else {
        assert Select(subs, q) == sel;
      }
    }
  }

  class SubmissionRepository {
    /** The stored entities; the row with id n sits at index n - 1 (IDENTITY ids, no deletes). */
    var rows: seq<Submission>

    /** Ids are assigned in order, and every stored row went through @PrePersist. */
    ghost predicate Valid()
      reads this, rows`id, rows`submittedAt
    {
      forall i :: 0 <= i < |rows| ==> rows[i].id == Some(i + 1) && rows[i].submittedAt.Some?
    }

    constructor ()
      ensures Valid() && rows == []
    {
      rows := [];
    }

    lemma ValidIdsAscending()
      requires Valid()
      ensures IdsAscending(rows)
    {
    }

    /** The frame of the row with the given id: empty when there is none. */
    function Row(id: int): set<Submission>
      reads this
    {
      if 1 <= id <= |rows| then {rows[id - 1]} else {}
    }

    /** findById: the stored entity with this id, if any. */
    function FindById(id: int): (r: Option<Submission>)
      reads this, rows`id, rows`submittedAt
      requires Valid()
      ensures r.Some? <==> exists i :: 0 <= i < |rows| && rows[i].id == Some(id)
      ensures r.Some? ==> r.value in rows && r.value.id == Some(id) && Row(id) == {r.value}
      ensures r.None? ==> Row(id) == {}
    {
      if 1 <= id <= |rows| then Some(rows[id - 1]) else None
    }

    function Find(q: Query): (r: seq<Submission>)
      reads this, rows
    {
      Select(rows, q)
    }

    /**
     * save of a new entity: @PrePersist runs, the next id is assigned and the
     * row is appended; no stored row changes.
     */
    method Save(s: Submission, now: Timestamp)
      requires Valid() && s !in rows && s.id.None?
      modifies this, s`id, s`submittedAt
      ensures Valid()
      ensures rows == old(rows) + [s]
      ensures s.id == Some(|rows|)
      ensures s.submittedAt == StampOnCreate(old(s.submittedAt), now)
    {
      s.OnCreate(now);
      s.id := Some(|rows| + 1);
      rows := rows + [s];
    }
  }
}
