# Birth registration store — Dafny model

This project models the core of a small birth-registration web service
(`main.py`). A client submits a birth record: the two parents' ids and id
types, the father's full name, the mother's name, the hospital and the birth
date. The service validates the record against declarative field constraints
and refuses it when a record for the same (father id, mother id) pair is
already stored. Otherwise it appends the record, stamped with its creation
time, to the `births` table. A second endpoint looks up every stored record
that names a given parent id.

The model has three modules:

- `Record` (`record.dfy`) holds the submitted record and the validator.
  Both parent ids must lie in 10000000..999999999999. The three text fields
  must be 2 to 100 characters long. The birth date must match
  `^\d{4}-\d{2}-\d{2}$`, modelled as a sequence of single-character atoms,
  with Python's `$` that also matches before one final newline. The two
  id-type fields are free strings. Lemmas show that the accepted id range is
  exactly the 8- to 12-digit numbers, that no calendar check is made, and
  that the id types never affect the verdict.
- `Births` (`births.dfy`) holds the `births` table as a class. It has a
  `seq<Row>` of rows in insertion order and a next-key counter standing in
  for AUTOINCREMENT. The two SQL queries become functions over the rows.
  `Save` is the save endpoint: validation (a refusal here is FastAPI's 422,
  raised before the handler runs), then the duplicate check on the ordered
  parent pair, then an append. `Search` is the search endpoint: it filters
  and projects the rows. The class invariant keeps keys increasing and
  parent pairs unique.
- `Http` (`http_status.dfy`) maps each outcome to the HTTP status the caller
  receives. The mapping exists both as written and as evidently intended;
  see Findings.

`main.py` does not implement, and the model does not invent:
- The duplicate guard is on the ordered pair, so swapped parent ids are not a duplicate.
- An id's length is not tied to its id type.
- The birth date is checked for shape only; there is no date window.
- Names are not restricted to a script.
- No purge or retention operation exists.

## Model

| member | source | states |
|---|---|---|
| `Record.Violations` | main.py:11-19 | The set of broken field constraints is empty exactly when the record is accepted. It never names an id-type field. It names each parent id exactly when that id is outside 10000000..999999999999, each of the three text fields exactly when its length is outside 2..100, and the birth date exactly when the date fails its pattern. |
| `Record.ParentIdDigits` | main.py:12-15 | A parent id is in the accepted range 10000000..999999999999 exactly when it is non-negative and has 8 to 12 decimal digits. |
| `Record.DecimalLengthAtMost` | main.py:12-15 | A natural number has at most k decimal digits exactly when it is below 10^k. This is the step behind the digit-count reading of the id range. |
| `Record.IdTypesUnconstrained` | main.py:13-16 | Replacing either id-type string never changes whether a record is accepted. |
| `Record.BirthDateOkShape` | main.py:19 | The date pattern accepts exactly 4 digits, '-', 2 digits, '-', 2 digits (10 characters). The only other accepted form is such a string followed by one newline. |
| `Record.NoCalendarCheck` | main.py:19 | "2024-99-99", "0000-00-00" and "2024-01-31\n" are accepted. "2024/01/31" and "24-01-31" are refused. |
| `Births.FindHospital` | main.py:62-66 | The duplicate lookup finds a hospital exactly when some stored row has the same father id and the same mother id. The hospital it returns is that of such a row. |
| `Births.Verdict` | main.py:57-67 | A record is refused as unprocessable iff it fails validation. It is refused as a duplicate iff it is valid and its ordered parent pair is stored. It is saved iff it is valid and the pair is not stored. |
| `Births.SaveAppendsOnly` | main.py:69-74 | A save keeps every stored row in place and adds at most one row. It adds one exactly when the verdict is Saved, and that row carries the submitted fields, the next key and the given creation time. |
| `Births.SavePreservesUniqueness` | main.py:62-74 | If no two rows share (father id, mother id) before a save, none do after it. |
| `Births.SecondSubmissionIsDuplicate` | main.py:62-67 | After a save of a valid record, any valid record with the same father id and mother id is refused as a duplicate. |
| `Births.SwappedParentsAreNotDuplicate` | main.py:63-64 | On any table without a row for (f, m), adding a row for (m, f) does not block a valid record for (f, m) when f differs from m: the guard is on the ordered pair. |
| `Births.Matching` | main.py:84-89 | A row is in the search's row set iff it is stored and its father id or mother id is the query. Each such row appears as often as it is stored, and no other row appears. |
| `Births.ProjectAll` | main.py:92 | Each result entry is the six-column projection of the row at the same position. |
| `Births.SearchResultSound` | main.py:84-92 | Every summary in the search results is the six-column projection of a stored row whose father id or mother id is the query. |
| `Births.SearchResultComplete` | main.py:84-92 | For every stored row whose father id or mother id is the query, its six-column projection is in the search results. |
| `Births.BirthsTable.constructor` | main.py:31-42 | A new table is empty, its first key is 1, and it satisfies the table invariant. |
| `Births.BirthsTable.Save` | main.py:57-77 | Save keeps the table invariant, including unique parent pairs. Its result is the verdict on the old rows, and its new rows are the rows after a save that the save lemmas are about. A refusal leaves rows and counter unchanged. A success appends exactly one row with the old counter as key, the submitted fields and `createdAt`, and advances the counter. |
| `Births.BirthsTable.Search` | main.py:79-94 | Search fails with NotFound iff no stored row names the id. Otherwise the result is non-empty. A summary is in it iff it is the projection of a stored row whose father id or mother id is the id. As a multiset, the result is the projections of the matching rows. |
| `Http.StatusAsWritten` | main.py:66-77 | As written, the status raised for a refusal passes through the catch-all: every refusal raised inside a handler's `try` (duplicate, not found) reaches the caller as 500, and the status differs from the raised one exactly for those; validation refusals keep their 422. |
| `Http.RefusalsReportedAsServerError` | main.py:90-94 | As written, a duplicate save and an empty search both reach the caller as 500 and cannot be told apart, although they were raised with different statuses. |
| `Http.Status` | main.py:66-67 | The status each refusal is raised with, the intended one, is a client error (4xx): 422 for validation, 400 for a duplicate, 404 for an empty search. |
| `Http.StatusDistinguishesFailures` | main.py:90-91 | Under the intended mapping, two refusals have the same status iff they are the same kind of failure. |
| `Http.SaveStatus` | main.py:57-77 | The save response is 200 exactly when the record was saved. Otherwise it is the intended status of the refusal. |
| `Http.SearchStatus` | main.py:79-94 | The search response is 200 exactly when results were found. Otherwise it is the intended status of the refusal. |
| `Http.SaveTwice` | main.py:62-75 | On an empty table, saving a valid record twice answers 200 and then, under the intended mapping, 400 (as written the second answer is 500; see Findings). Only the first submission is stored, with its own creation time. |

## Findings

| source | as written | input that shows it | evidently intended | confidence | as-written member | corrected member |
|---|---|---|---|---|---|---|
| main.py:66-77 | The duplicate refusal raises a 400 inside `try`. The `except Exception` clause catches it and raises a 500 instead. | Save the same valid record twice: the second call answers 500. | The second call answers 400. | high; not executed | `Http.StatusAsWritten`, `Http.RefusalsReportedAsServerError` | `Http.Status`, `Http.SaveStatus` |
| main.py:90-94 | The empty-search refusal raises a 404 inside `try`. The same catch-all turns it into a 500. | Search any id on an empty table: the call answers 500. | The call answers 404. | high; not executed | `Http.StatusAsWritten`, `Http.RefusalsReportedAsServerError` | `Http.Status`, `Http.SearchStatus` |

## Left out

- HTTP routing, request and response JSON shaping, and the message texts of the errors: only the outcome kind and the status are modelled.
- The database connection lifecycle and table creation: the table is an in-memory sequence that starts empty. A database file that already holds rows is not modelled.
- Database failures other than the two refusals (a SQLite error also becomes a 500) are not modelled.
- The clock: the creation timestamp is a parameter of `Save` instead of the current time in ISO format.
- SQLite's conversion of the text search id to an integer when it is compared with an INTEGER column: the query id is an integer.
- The order of search results: the query has no ORDER BY, so `Search` promises only the multiset of its results.
- AUTOINCREMENT details: keys come from a counter that starts at 1 and grows by one per stored row.
- Pydantic's coercion of input values (numeric strings to integers and the like) and the text of its error messages: only the acceptance predicate and the set of fields reported as failing are modelled.
- The race between the duplicate lookup and the insert under concurrent requests: calls are sequential.
- Record.IsDigit: accepts only the ASCII digits 0-9, whereas Python's `\d` on text also accepts the other Unicode decimal digits (Arabic-Indic digits, for example), so the model refuses some dates the service accepts.
