/**
 * The wire vocabulary of the control API: the endpoints it serves, the error
 * kinds the orchestrator can raise, the JSON bodies it answers with, and the
 * translation of a failure into an HTTP response that every handler's catch
 * block performs.
 */
module Responses {

  /** Why an orchestrator operation failed, as a closed tag in place of the
      error's class name. `Other` stands for every other thrown value. */
  datatype ErrorKind =
    | AlreadyInitialized
    | InappropriateCondition
    | InvalidArgument
    | WorkerStatus
    | Other

  /** The six routes the router registers. */
  datatype Endpoint =
    | StatusRoute    // GET /status
    | WorkersRoute   // GET /status/workers
    | StartRoute     // PUT /start
    | ScaleRoute     // PUT /scale
    | ShutdownRoute  // PUT /shutdown
    | ReloadRoute    // PUT /reload

  /** The JSON object sent as the response body. */
  datatype Body =
    | StatusBody(status: int)           // { status }
    | WorkersBody(workers: seq<int>)    // { workers }
    | ErrorBody(code: int, message: string)  // { error: { code, message } }

  /** An HTTP status together with the body sent with it. */
  datatype Response = Response(httpStatus: int, body: Body)

  // The five fixed error envelopes.
  const UnknownErrorBody := ErrorBody(1000, "Unknown error")
  const AlreadyStartedBody := ErrorBody(1001, "Service already started")
  const InappropriateConditionBody := ErrorBody(1002, "Inappropriate conditions")
  const InvalidScaleSizeBody := ErrorBody(1003, "Invalid scale size")
  const WorkerStatusBody := ErrorBody(1004, "One or more workers have error state")

  /** The catch-all reply: 500 with the fixed envelope and nothing from the error. */
  const UnknownError := Response(500, UnknownErrorBody)

  /** What the catch block of the handler for `ep` sends when `e` was thrown. */
  function ErrorResponse(ep: Endpoint, e: ErrorKind): (r: Response)
    ensures r.body.ErrorBody? && (r.httpStatus == 400 || r.httpStatus == 500)
    ensures e == Other ==> r == UnknownError
    ensures ep == StatusRoute || ep == WorkersRoute ==> r == UnknownError
    ensures r.body.code == 1000 ==> r == UnknownError
    ensures r.body.code == 1001 <==> ep == StartRoute && e == AlreadyInitialized
    ensures r.body.code == 1002 <==>
              (ep == ScaleRoute || ep == ShutdownRoute || ep == ReloadRoute) && e == InappropriateCondition
    ensures r.body.code == 1003 <==> ep == ScaleRoute && e == InvalidArgument
    ensures r.body.code == 1004 <==> (ep == ShutdownRoute || ep == ReloadRoute) && e == WorkerStatus
    ensures r == UnknownError || r.body.code in {1001, 1002, 1003, 1004}
    ensures r.body.code == 1001 ==> r == Response(400, AlreadyStartedBody)
    ensures r.body.code == 1002 ==> r == Response(400, InappropriateConditionBody)
    ensures r.body.code == 1003 ==> r == Response(400, InvalidScaleSizeBody)
    ensures r.body.code == 1004 ==> r == Response(500, WorkerStatusBody)
  {
    match ep
    case StatusRoute => UnknownError
    case WorkersRoute => UnknownError
    case StartRoute =>
      if e == AlreadyInitialized then Response(400, AlreadyStartedBody)
      else UnknownError
    case ScaleRoute =>
      if e == InappropriateCondition then Response(400, InappropriateConditionBody)
      else if e == InvalidArgument then Response(400, InvalidScaleSizeBody)
      else UnknownError
    case ShutdownRoute =>
      if e == InappropriateCondition then Response(400, InappropriateConditionBody)
      else if e == WorkerStatus then Response(500, WorkerStatusBody)
      else UnknownError
    case ReloadRoute =>
      if e == InappropriateCondition then Response(400, InappropriateConditionBody)
      else if e == WorkerStatus then Response(500, WorkerStatusBody)
      else UnknownError
  }

  /** The error code alone fixes the whole reply (HTTP status and message),
      whichever endpoint and error produced it, so clients may branch on it. */
  lemma CodeDeterminesResponse(ep1: Endpoint, e1: ErrorKind, ep2: Endpoint, e2: ErrorKind)
    requires ErrorResponse(ep1, e1).body.code == ErrorResponse(ep2, e2).body.code
    ensures ErrorResponse(ep1, e1) == ErrorResponse(ep2, e2)
  {
  }

  /** A row of the documented error table: an error kind, the endpoints that
      recognise it, and the reply they send for it. */
  datatype Row = Row(kind: ErrorKind, endpoints: set<Endpoint>, reply: Response)

  /** The error table read by error kind rather than by handler. */
  const ErrorTable: seq<Row> := [
    Row(AlreadyInitialized, {StartRoute}, Response(400, AlreadyStartedBody)),
    Row(InappropriateCondition, {ScaleRoute, ShutdownRoute, ReloadRoute}, Response(400, InappropriateConditionBody)),
    Row(InvalidArgument, {ScaleRoute}, Response(400, InvalidScaleSizeBody)),
    Row(WorkerStatus, {ShutdownRoute, ReloadRoute}, Response(500, WorkerStatusBody))
  ]

  /** The reply of the first row of `rows` that lists `e` for `ep`, or the
      catch-all when none does. */
  function Lookup(rows: seq<Row>, ep: Endpoint, e: ErrorKind): (r: Response)
  {
    if rows == [] then UnknownError
    else if rows[0].kind == e && ep in rows[0].endpoints then rows[0].reply
    else Lookup(rows[1..], ep, e)
  }

  /** The per-handler catch blocks implement exactly the documented table. */
  lemma {:induction false} ErrorResponseFollowsTable(ep: Endpoint, e: ErrorKind)
    ensures ErrorResponse(ep, e) == Lookup(ErrorTable, ep, e)
  {
    // Unfold the lookup one row at a time; each row either answers or defers.
    var rows := ErrorTable;
    assert Lookup(rows, ep, e) ==
      if e == AlreadyInitialized && ep == StartRoute then rows[0].reply else Lookup(rows[1..], ep, e);
    rows := rows[1..];
    assert Lookup(rows, ep, e) ==
      if e == InappropriateCondition && ep in {ScaleRoute, ShutdownRoute, ReloadRoute} then rows[0].reply
      else Lookup(rows[1..], ep, e);
    rows := rows[1..];
    assert Lookup(rows, ep, e) ==
      if e == InvalidArgument && ep == ScaleRoute then rows[0].reply else Lookup(rows[1..], ep, e);
    rows := rows[1..];
    assert Lookup(rows, ep, e) ==
      if e == WorkerStatus && ep in {ShutdownRoute, ReloadRoute} then rows[0].reply else Lookup(rows[1..], ep, e);
    assert rows[1..] == [];
  }
}
