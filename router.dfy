/**
 * The router factory and its six route handlers. A handler issues at most one
 * command and at most one query on the orchestrator, in that order, and turns
 * the outcome into a response; every failure, of the command or of the query,
 * goes through the endpoint's catch block (`Responses.ErrorResponse`).
 */
module Router {
  import opened Responses
  import opened Orchestrator

  // ---------------------------------------------------------------------------
  // Construction

  const MasterRequired := "\"master\" option is required"
  const MasterNotInstance := "\"master\" option must be valid instance of \"Master\""

  /** The `master` option as the factory receives it: missing (or any falsy
      value), or an object whose class is named `className`. */
  datatype MasterOption = Missing | Given(className: string)

  /** The factory's verdict on the option: accepted, or refused with the
      message of the error it throws. */
  datatype Check = Accepted | Refused(message: string)

  /** Only an instance of the class named "Master" is accepted; a missing
      option is reported as such before its class is looked at. */
  function CheckMaster(m: MasterOption): (c: Check)
    ensures c == Accepted <==> m == Given("Master")
    ensures c == Refused(MasterRequired) <==> m == Missing
    ensures c == Refused(MasterNotInstance) <==> m.Given? && m.className != "Master"
  {
    if m.Missing? then Refused(MasterRequired)
    else if m.className != "Master" then Refused(MasterNotInstance)
    else Accepted
  }

  /** How a possibly absent orchestrator reference looks to the check. */
  function OptionOf(master: Master?): (m: MasterOption)
    ensures m.Missing? <==> master == null
    ensures m.Given? ==> m.className == master.className
  {
    if master == null then Missing else Given(master.className)
  }

  // ---------------------------------------------------------------------------
  // What one request does, as a function of the orchestrator's script

  /** A request to one of the six routes; `size` is the body field of /scale. */
  datatype Request =
    | StatusRequest
    | WorkersRequest
    | StartRequest
    | ScaleRequest(size: int)
    | ShutdownRequest
    | ReloadRequest
  {
    function Route(): Endpoint
    {
      match this
      case StatusRequest => StatusRoute
      case WorkersRequest => WorkersRoute
      case StartRequest => StartRoute
      case ScaleRequest(_) => ScaleRoute
      case ShutdownRequest => ShutdownRoute
      case ReloadRequest => ReloadRoute
    }

    /** True of the four routes that change the fleet. */
    predicate IsCommand()
    {
      !(StatusRequest? || WorkersRequest?)
    }
  }

  /** The command a mutating request issues; /scale passes its size on as is. */
  function Command(req: Request): (c: Call)
    requires req.IsCommand()
    ensures c != CallGetStatus && c != CallGetWorkersStatuses
    ensures req.ScaleRequest? <==> c.CallRescale?
    ensures c.CallRescale? ==> c.size == req.size
  {
    match req
    case StartRequest => CallStart
    case ScaleRequest(size) => CallRescale(size)
    case ShutdownRequest => CallGracefulShutdown
    case ReloadRequest => CallGracefulReload
  }

  /** The query whose answer fills the reply: the fleet status for /status,
      /start and /shutdown, the worker statuses for the other three. */
  function Query(req: Request): (c: Call)
    ensures c == CallGetStatus || c == CallGetWorkersStatuses
    ensures c == CallGetStatus <==> req.StatusRequest? || req.StartRequest? || req.ShutdownRequest?
  {
    match req
    case StatusRequest => CallGetStatus
    case StartRequest => CallGetStatus
    case ShutdownRequest => CallGetStatus
    case WorkersRequest => CallGetWorkersStatuses
    case ScaleRequest(_) => CallGetWorkersStatuses
    case ReloadRequest => CallGetWorkersStatuses
  }

  /** How the command of a mutating request ends under script `s`. */
  function CommandOutcome(req: Request, s: Script): Outcome
    requires req.IsCommand()
  {
    match req
    case StartRequest => s.start
    case ScaleRequest(size) => s.rescale(size)
    case ShutdownRequest => s.shutdown
    case ReloadRequest => s.reload
  }

  /** True when the command, if any, resolved, so that the query is issued. */
  predicate ReachesQuery(req: Request, s: Script)
  {
    !req.IsCommand() || CommandOutcome(req, s).Resolved?
  }

  /** The answer of the query, already wrapped in the body it is sent under. */
  function QueryAnswer(req: Request, s: Script): Result<Body>
  {
    if Query(req) == CallGetStatus then
      match s.status
      case Ok(v) => Ok(StatusBody(v))
      case Err(k) => Err(k)
    else
      match s.workers
      case Ok(v) => Ok(WorkersBody(v))
      case Err(k) => Err(k)
  }

  /** The calls one request makes on an orchestrator that follows `s`. */
  function Trace(req: Request, s: Script): (t: seq<Call>)
    ensures |t| > 0
    ensures req.IsCommand() ==> t[0] == Command(req) && Count(t, Command(req)) == 1
    ensures !req.IsCommand() ==> t == [Query(req)]
    ensures Query(req) in t <==> ReachesQuery(req, s)
    ensures Query(req) in t ==> Count(t, Query(req)) == 1 && t[|t| - 1] == Query(req)
    ensures req.IsCommand() && !ReachesQuery(req, s) ==> t == [Command(req)]
    ensures req.IsCommand() && ReachesQuery(req, s) ==> t == [Command(req), Query(req)]
  {
    if !req.IsCommand() then [Query(req)]
    else if CommandOutcome(req, s).Rejected? then [Command(req)]
    else
      var t := [Command(req), Query(req)];
      assert t[1..] == [Query(req)];
      t
  }

  /** The response one request gets from an orchestrator that follows `s`. */
  function Reply(req: Request, s: Script): (r: Response)
    ensures r.httpStatus == 200 <==> !r.body.ErrorBody?
    ensures r.httpStatus == 200 <==> ReachesQuery(req, s) && QueryAnswer(req, s).Ok?
    ensures r.body.StatusBody? ==> Query(req) == CallGetStatus && s.status == Ok(r.body.status)
    ensures r.body.WorkersBody? ==> Query(req) == CallGetWorkersStatuses && s.workers == Ok(r.body.workers)
    ensures !ReachesQuery(req, s) ==> r == ErrorResponse(req.Route(), CommandOutcome(req, s).kind)
    ensures ReachesQuery(req, s) && QueryAnswer(req, s).Err? ==>
              r == ErrorResponse(req.Route(), QueryAnswer(req, s).kind)
    ensures !req.IsCommand() ==> r.httpStatus == 200 || r == UnknownError
  {
    if !ReachesQuery(req, s) then ErrorResponse(req.Route(), CommandOutcome(req, s).kind)
    else
      match QueryAnswer(req, s)
      case Ok(b) => Response(200, b)
      case Err(k) => ErrorResponse(req.Route(), k)
  }

  // ---------------------------------------------------------------------------
  // The router

  /** The router built around one orchestrator; it keeps no state of its own. */
  class Router {
    const master: Master

    constructor (master: Master)
      ensures this.master == master
    {
      this.master := master;
    }

    /** GET /status */
    method Status() returns (r: Response)
      modifies master
      ensures master.log == old(master.log) + Trace(StatusRequest, master.script)
      ensures r == Reply(StatusRequest, master.script)
    {
      var q := master.GetStatus();
      match q
      case Ok(v) => r := Response(200, StatusBody(v));
      case Err(_) => r := UnknownError;
    }

    /** GET /status/workers */
    method Workers() returns (r: Response)
      modifies master
      ensures master.log == old(master.log) + Trace(WorkersRequest, master.script)
      ensures r == Reply(WorkersRequest, master.script)
    {
      var q := master.GetWorkersStatuses();
      match q
      case Ok(v) => r := Response(200, WorkersBody(v));
      case Err(_) => r := UnknownError;
    }

    /** PUT /start */
    method Start() returns (r: Response)
      modifies master
      ensures master.log == old(master.log) + Trace(StartRequest, master.script)
      ensures Count(master.log, CallStart) == Count(old(master.log), CallStart) + 1
      ensures r == Reply(StartRequest, master.script)
    {
      CountConcat(master.log, Trace(StartRequest, master.script), CallStart);
      var o := master.Start();
      if o.Rejected? {
        return ErrorResponse(StartRoute, o.kind);
      }
      var q := master.GetStatus();
      match q
      case Ok(v) => r := Response(200, StatusBody(v));
      case Err(k) => r := ErrorResponse(StartRoute, k);
    }

    /** PUT /scale with body { size } */
    method Scale(size: int) returns (r: Response)
      modifies master
      ensures master.log == old(master.log) + Trace(ScaleRequest(size), master.script)
      ensures Count(master.log, CallRescale(size)) == Count(old(master.log), CallRescale(size)) + 1
      ensures r == Reply(ScaleRequest(size), master.script)
    {
      CountConcat(master.log, Trace(ScaleRequest(size), master.script), CallRescale(size));
      var o := master.Rescale(size);
      if o.Rejected? {
        return ErrorResponse(ScaleRoute, o.kind);
      }
      var q := master.GetWorkersStatuses();
      match q
      case Ok(v) => r := Response(200, WorkersBody(v));
      case Err(k) => r := ErrorResponse(ScaleRoute, k);
    }

    /** PUT /shutdown */
    method Shutdown() returns (r: Response)
      modifies master
      ensures master.log == old(master.log) + Trace(ShutdownRequest, master.script)
      ensures Count(master.log, CallGracefulShutdown) == Count(old(master.log), CallGracefulShutdown) + 1
      ensures r == Reply(ShutdownRequest, master.script)
    {
      CountConcat(master.log, Trace(ShutdownRequest, master.script), CallGracefulShutdown);
      var o := master.GracefulShutdown();
      if o.Rejected? {
        return ErrorResponse(ShutdownRoute, o.kind);
      }
      var q := master.GetStatus();
      match q
      case Ok(v) => r := Response(200, StatusBody(v));
      case Err(k) => r := ErrorResponse(ShutdownRoute, k);
    }

    /** PUT /reload */
    method Reload() returns (r: Response)
      modifies master
      ensures master.log == old(master.log) + Trace(ReloadRequest, master.script)
      ensures Count(master.log, CallGracefulReload) == Count(old(master.log), CallGracefulReload) + 1
      ensures r == Reply(ReloadRequest, master.script)
    {
      CountConcat(master.log, Trace(ReloadRequest, master.script), CallGracefulReload);
      var o := master.GracefulReload();
      if o.Rejected? {
        return ErrorResponse(ReloadRoute, o.kind);
      }
      var q := master.GetWorkersStatuses();
      match q
      case Ok(v) => r := Response(200, WorkersBody(v));
      case Err(k) => r := ErrorResponse(ReloadRoute, k);
    }
  }

  /** What the factory returns: a router, or the error it throws. */
  datatype Construction = Built(router: Router) | Failed(message: string)

  /** The exported factory: check the `master` option, then build the router. */
  method Create(master: Master?) returns (c: Construction)
    ensures c.Failed? <==> CheckMaster(OptionOf(master)).Refused?
    ensures c.Failed? ==> c.message == CheckMaster(OptionOf(master)).message
    ensures c.Built? ==> master != null && fresh(c.router) && c.router.master == master
  {
    var check := CheckMaster(OptionOf(master));
    if check.Refused? {
      return Failed(check.message);
    }
    var router := new Router(master);
    c := Built(router);
  }
}
