/**
 * The HTTP status a caller receives for each outcome of the two endpoints.
 *
 * Both handlers raise an HTTP error for a refused request (400 for a
 * duplicate, 404 for an empty search) inside a `try` whose
 * `except Exception` clause catches every exception, that HTTP error
 * included, and raises a fresh 500 in its place. `Status` is the status
 * each refusal is raised with, the mapping the handlers evidently intend, and
 * the response functions below use it; `StatusAsWritten` passes it through
 * the catch-all, as the handlers are written.
 */
module Http {
  import opened Record
  import opened Births

  const OkStatus: int := 200
  const BadRequest: int := 400
  const NotFoundStatus: int := 404
  const UnprocessableEntity: int := 422
  const InternalServerError: int := 500

  /**
   * The status attached to a refusal where it is raised: FastAPI answers 422
   * before the handler runs, the save handler raises 400 for a duplicate and
   * the search handler raises 404 when nothing matches. This is the mapping
   * the handlers evidently intend.
   */
  function Status(f: Failure): (code: int)
    ensures 400 <= code < 500
  {
    match f
    case Unprocessable => UnprocessableEntity
    case Duplicate => BadRequest
    case NotFound => NotFoundStatus
  }

  /** The refusal is raised inside a handler's `try` block (validation runs before the handler). */
  predicate RaisedInsideTry(f: Failure) {
    f != Unprocessable
  }

  /** `except Exception as e: raise HTTPException(status_code=500, ...)`: whatever was raised in the `try` becomes 500. */
  function CatchAll(insideTry: bool, code: int): int {
    if insideTry then InternalServerError else code
  }

  /** The status of a refused request as the handlers are written: the raised status passed through the catch-all. */
  function StatusAsWritten(f: Failure): (code: int)
    ensures RaisedInsideTry(f) ==> code == InternalServerError
    ensures code != Status(f) <==> RaisedInsideTry(f)
  {
    CatchAll(RaisedInsideTry(f), Status(f))
  }

  /** As written, a duplicate submission and an empty search both reach the caller as a server error. */
  lemma RefusalsReportedAsServerError()
    ensures StatusAsWritten(Duplicate) == InternalServerError
    ensures StatusAsWritten(NotFound) == InternalServerError
    ensures StatusAsWritten(Duplicate) == StatusAsWritten(NotFound)
    ensures Status(Duplicate) != Status(NotFound)
  {
  }

  /** With the intended mapping the status tells the caller which refusal happened. */
  lemma StatusDistinguishesFailures(f: Failure, g: Failure)
    ensures Status(f) == Status(g) <==> f == g
  {
  }

  /** The status of the save endpoint's response. */
  function SaveStatus(r: SaveResult): (code: int)
    ensures code == OkStatus <==> r == Saved
    ensures r.Rejected? ==> code == Status(r.failure)
  {
    match r
    case Saved => OkStatus
    case Rejected(f) => Status(f)
  }

  /** The status of the search endpoint's response. */
  function SearchStatus<T>(r: Outcome<T>): (code: int)
    ensures code == OkStatus <==> r.Ok?
    ensures r.Err? ==> code == Status(r.failure)
  {
    match r
    case Ok(_) => OkStatus
    case Err(f) => Status(f)
  }

  /** Saving the same parents twice: the second response is 400, and the table keeps one row for them. */
  method SaveTwice(table: BirthsTable, d: BirthData, firstAt: string, secondAt: string)
    returns (first: int, second: int)
    requires table.Valid() && table.rows == [] && Accepts(d)
    modifies table
    ensures table.Valid()
    ensures first == OkStatus && second == BadRequest
    ensures |table.rows| == 1 && table.rows[0].data == d && table.rows[0].createdAt == firstAt
  {
    var r1 := table.Save(d, firstAt);
    first := SaveStatus(r1);
    var r2 := table.Save(d, secondAt);
    second := SaveStatus(r2);
  }
}
