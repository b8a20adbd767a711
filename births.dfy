/**
 * The `births` table and the two operations on it: the duplicate-guarded
 * insert behind the save endpoint and the parent-id search behind the
 * search endpoint. The table is an in-memory sequence of rows in insertion
 * order; the SQL queries become functions over that sequence.
 */
module Births {
  import opened Record

  /** One row of the `births` table: the auto-assigned key, the stored record, and its creation stamp. */
  datatype Row = Row(id: int, data: BirthData, createdAt: string)

  /** The six columns a search returns for each matching row. */
  datatype Summary = Summary(
    motherName: string,
    fatherFullName: string,
    hospitalName: string,
    birthDate: string,
    fatherIdType: string,
    motherIdType: string)

  /** Why a request is refused. */
  datatype Failure =
    | Unprocessable  // the body breaks a field constraint; the handler never runs
    | Duplicate      // a row for the same (father id, mother id) already exists
    | NotFound       // no row mentions the searched parent id

  datatype SaveResult = Saved | Rejected(failure: Failure)

  datatype Outcome<T> = Ok(value: T) | Err(failure: Failure)

  datatype Option<T> = None | Some(value: T)

  // ---------------------------------------------------------------------
  // Queries over the rows
  // ---------------------------------------------------------------------

  /** Some row was stored for this ordered (father id, mother id) pair. */
  predicate HasParents(rows: seq<Row>, fatherId: int, motherId: int) {
    exists i | 0 <= i < |rows| :: rows[i].data.fatherId == fatherId && rows[i].data.motherId == motherId
  }

  /** No two rows share the same ordered (father id, mother id) pair. */
  predicate UniqueParents(rows: seq<Row>) {
    forall i, j | 0 <= i < j < |rows| ::
      rows[i].data.fatherId != rows[j].data.fatherId || rows[i].data.motherId != rows[j].data.motherId
  }

  /**
   * `SELECT hospital_name FROM births WHERE father_id = ? AND mother_id = ?`
   * followed by `fetchone()`: the hospital of some row stored for the pair, if any.
   */
  function FindHospital(rows: seq<Row>, fatherId: int, motherId: int): (h: Option<string>)
    ensures h.Some? <==> HasParents(rows, fatherId, motherId)
    ensures h.Some? ==> exists i | 0 <= i < |rows| ::
      rows[i].data.fatherId == fatherId && rows[i].data.motherId == motherId &&
      rows[i].data.hospitalName == h.value
  {
    if rows == [] then None
    else if rows[0].data.fatherId == fatherId && rows[0].data.motherId == motherId then
      Some(rows[0].data.hospitalName)
    else
      var rest := FindHospital(rows[1..], fatherId, motherId);
      assert forall i | 0 <= i < |rows| - 1 :: rows[1..][i] == rows[i + 1];
      assert HasParents(rows, fatherId, motherId) ==> HasParents(rows[1..], fatherId, motherId) by {
        if HasParents(rows, fatherId, motherId) {
          var i :| 0 <= i < |rows| && rows[i].data.fatherId == fatherId && rows[i].data.motherId == motherId;
          assert i != 0;
          assert rows[1..][i - 1] == rows[i];
        }
      }
      rest
  }

  /** The row's father id or mother id is the searched id (`WHERE father_id = ? OR mother_id = ?`). */
  predicate MentionsParent(r: Row, id: int) {
    r.data.fatherId == id || r.data.motherId == id
  }

  /** The rows that mention `id`, each as often as it is stored. */
  function Matching(rows: seq<Row>, id: int): (m: seq<Row>)
    ensures |m| <= |rows|
    ensures forall r :: r in m <==> r in rows && MentionsParent(r, id)
    ensures forall r :: multiset(m)[r] == if MentionsParent(r, id) then multiset(rows)[r] else 0
  {
    if rows == [] then []
    else
      var rest := Matching(rows[1..], id);
      assert rows == [rows[0]] + rows[1..];
      if MentionsParent(rows[0], id) then [rows[0]] + rest else rest
  }

  /** The projection of one row onto the six columns the search selects. */
  function Project(r: Row): Summary {
    Summary(r.data.motherName, r.data.fatherFullName, r.data.hospitalName,
            r.data.birthDate, r.data.fatherIdType, r.data.motherIdType)
  }

  /** The projection of every row, in order. */
  function ProjectAll(rows: seq<Row>): (s: seq<Summary>)
    ensures |s| == |rows|
    ensures forall i | 0 <= i < |rows| :: s[i] == Project(rows[i])
  {
    if rows == [] then [] else [Project(rows[0])] + ProjectAll(rows[1..])
  }

  /** Every search result is the projection of a stored row that mentions the id. */
  lemma SearchResultSound(rows: seq<Row>, id: int, s: Summary)
    requires s in ProjectAll(Matching(rows, id))
    ensures exists i | 0 <= i < |rows| :: MentionsParent(rows[i], id) && Project(rows[i]) == s
  {
    var found := Matching(rows, id);
    var results := ProjectAll(found);
    var k :| 0 <= k < |results| && results[k] == s;
    assert found[k] in rows && MentionsParent(found[k], id);
    var i :| 0 <= i < |rows| && rows[i] == found[k];
    assert MentionsParent(rows[i], id) && Project(rows[i]) == s;
  }

  /** The projection of every stored row that mentions the id is among the search results. */
  lemma SearchResultComplete(rows: seq<Row>, id: int, i: int)
    requires 0 <= i < |rows| && MentionsParent(rows[i], id)
    ensures Project(rows[i]) in ProjectAll(Matching(rows, id))
  {
    var found := Matching(rows, id);
    assert rows[i] in found;
    var k :| 0 <= k < |found| && found[k] == rows[i];
    assert ProjectAll(found)[k] == Project(rows[i]);
  }

  // ---------------------------------------------------------------------
  // The save step as a function of the table before it
  // ---------------------------------------------------------------------

  /** The verdict on a submitted record against the stored rows. */
  function Verdict(rows: seq<Row>, d: BirthData): (r: SaveResult)
    ensures r == Rejected(Unprocessable) <==> !Accepts(d)
    ensures r == Rejected(Duplicate) <==> Accepts(d) && HasParents(rows, d.fatherId, d.motherId)
    ensures r == Saved <==> Accepts(d) && !HasParents(rows, d.fatherId, d.motherId)
  {
    if !Accepts(d) then Rejected(Unprocessable)
    else if FindHospital(rows, d.fatherId, d.motherId).Some? then Rejected(Duplicate)
    else Saved
  }

  /** The rows after a save: one new row at the end when the verdict is Saved, otherwise the same rows. */
  function RowsAfterSave(rows: seq<Row>, nextId: int, d: BirthData, createdAt: string): seq<Row> {
    if Verdict(rows, d) == Saved then rows + [Row(nextId, d, createdAt)] else rows
  }

  /** A save never changes or removes a stored row and adds at most one, which carries the submitted fields. */
  lemma SaveAppendsOnly(rows: seq<Row>, nextId: int, d: BirthData, createdAt: string)
    ensures var after := RowsAfterSave(rows, nextId, d, createdAt);
      |rows| <= |after| <= |rows| + 1 && after[..|rows|] == rows &&
      (|after| == |rows| + 1 <==> Verdict(rows, d) == Saved) &&
      (|after| == |rows| + 1 ==> after[|rows|] == Row(nextId, d, createdAt))
  {
  }

  /** A save keeps the table free of duplicate parent pairs. */
  lemma SavePreservesUniqueness(rows: seq<Row>, nextId: int, d: BirthData, createdAt: string)
    requires UniqueParents(rows)
    ensures UniqueParents(RowsAfterSave(rows, nextId, d, createdAt))
  {
  }

  /** Submitting the same record twice: the first may be stored, the second is always a duplicate. */
  lemma SecondSubmissionIsDuplicate(rows: seq<Row>, nextId: int, d: BirthData, createdAt: string, e: BirthData)
    requires Accepts(d) && Accepts(e)
    requires e.fatherId == d.fatherId && e.motherId == d.motherId
    ensures Verdict(RowsAfterSave(rows, nextId, d, createdAt), e) == Rejected(Duplicate)
  {
    var after := RowsAfterSave(rows, nextId, d, createdAt);
    if Verdict(rows, d) == Saved {
      assert after[|rows|] == Row(nextId, d, createdAt);
    }
  }

  /**
   * The duplicate guard is on the ordered pair: a stored row for the same
   * parents with their ids swapped does not make a record a duplicate.
   */
  lemma SwappedParentsAreNotDuplicate(rows: seq<Row>, stored: Row, d: BirthData)
    requires Accepts(d) && d.fatherId != d.motherId
    requires !HasParents(rows, d.fatherId, d.motherId)
    requires stored.data.fatherId == d.motherId && stored.data.motherId == d.fatherId
    ensures Verdict(rows + [stored], d) == Saved
  {
  }

  // ---------------------------------------------------------------------
  // The table itself
  // ---------------------------------------------------------------------

  class BirthsTable {
    /** The stored rows, oldest first. */
    var rows: seq<Row>
    /** The key the next inserted row receives (AUTOINCREMENT). */
    var nextId: int

    /**
     * Keys are positive, strictly increasing in insertion order and below
     * `nextId`; no two rows share a parent pair.
     */
    ghost predicate Valid()
      reads this
    {
      1 <= nextId &&
      (forall i | 0 <= i < |rows| :: 1 <= rows[i].id < nextId) &&
      (forall i, j | 0 <= i < j < |rows| :: rows[i].id < rows[j].id) &&
      UniqueParents(rows)
    }

    /** A freshly created, empty table. */
    constructor ()
      ensures Valid()
      ensures rows == [] && nextId == 1
    {
      rows := [];
      nextId := 1;
    }

    /**
     * The save endpoint: validate the record, refuse it when a row for the
     * same ordered parent pair exists, otherwise append one row stamped
     * with `createdAt`.
     */
    method Save(d: BirthData, createdAt: string) returns (r: SaveResult)
      requires Valid()
      modifies this
      ensures Valid()
      ensures r == Verdict(old(rows), d)
      ensures rows == RowsAfterSave(old(rows), old(nextId), d, createdAt)
      ensures r == Rejected(Duplicate) <==> Accepts(d) && HasParents(old(rows), d.fatherId, d.motherId)
      ensures r.Rejected? ==> rows == old(rows) && nextId == old(nextId)
      ensures r == Saved ==>
        rows == old(rows) + [Row(old(nextId), d, createdAt)] && nextId == old(nextId) + 1
    {
      if !Accepts(d) {
        return Rejected(Unprocessable);
      }
      var existing := FindHospital(rows, d.fatherId, d.motherId);
      if existing.Some? {
        return Rejected(Duplicate);
      }
      rows := rows + [Row(nextId, d, createdAt)];
      nextId := nextId + 1;
      r := Saved;
    }

    /**
     * The search endpoint: the six-column projection of every row whose
     * father id or mother id is `id`, or NotFound when there is none.
     * Only the multiset of results is promised, not their order.
     */
    method Search(id: int) returns (r: Outcome<seq<Summary>>)
      ensures r.Err? <==> forall i | 0 <= i < |rows| :: !MentionsParent(rows[i], id)
      ensures r.Err? ==> r.failure == NotFound
      ensures r.Ok? ==> |r.value| > 0
      ensures r.Ok? ==> forall s :: s in r.value <==>
        exists i | 0 <= i < |rows| :: MentionsParent(rows[i], id) && Project(rows[i]) == s
      ensures r.Ok? ==> multiset(r.value) == multiset(ProjectAll(Matching(rows, id)))
    {
      var found := Matching(rows, id);
      if found == [] {
        forall i | 0 <= i < |rows|
          ensures !MentionsParent(rows[i], id)
        {
          assert rows[i] in rows;
        }
        return Err(NotFound);
      }
      var results := ProjectAll(found);
      assert found[0] in rows && MentionsParent(found[0], id);
      forall s
        ensures s in results <==> exists i | 0 <= i < |rows| :: MentionsParent(rows[i], id) && Project(rows[i]) == s
      {
        if s in results {
          SearchResultSound(rows, id, s);
        }
        if exists i | 0 <= i < |rows| :: MentionsParent(rows[i], id) && Project(rows[i]) == s {
          var i :| 0 <= i < |rows| && MentionsParent(rows[i], id) && Project(rows[i]) == s;
          SearchResultComplete(rows, id, i);
        }
      }
      r := Ok(results);
    }
  }
}
