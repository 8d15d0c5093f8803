/**
 * Client code of the router's contracts: the situations the repository's unit
 * tests set up, each checked from the handlers' specifications alone.
 */
module Scenarios {
  import opened Responses
  import opened Orchestrator
  import opened Router

  /** A script in which every operation succeeds. */
  function Calm(status: int, workers: seq<int>): Script
  {
    Script(Ok(status), Ok(workers), Resolved, _ => Resolved, Resolved, Resolved)
  }

  method ConstructionFailures()
  {
    var c := Create(null);
    assert c == Failed("\"master\" option is required");

    var notMaster := new Master("Number", Calm(0, []));
    c := Create(notMaster);
    assert c == Failed("\"master\" option must be valid instance of \"Master\"");
  }

  method ReadStatus()
  {
    var m := new Master("Master", Calm(3, []));
    var c := Create(m);
    var r := c.router.Status();
    assert r == Response(200, StatusBody(3));

    var failing := new Master("Master", Calm(3, []).(status := Err(Other)));
    c := Create(failing);
    r := c.router.Status();
    assert r == Response(500, ErrorBody(1000, "Unknown error"));
  }

  method StartThenQuery()
  {
    var m := new Master("Master", Calm(3, []));
    var c := Create(m);
    var r := c.router.Start();
    assert r == Response(200, StatusBody(3));
    assert Count(m.log, CallStart) == 1;
    assert m.log == [CallStart, CallGetStatus];

    var started := new Master("Master", Calm(3, []).(start := Rejected(AlreadyInitialized)));
    c := Create(started);
    r := c.router.Start();
    assert r == Response(400, ErrorBody(1001, "Service already started"));
    assert started.log == [CallStart];
  }

  method ScaleToFour()
  {
    var m := new Master("Master", Calm(0, [3, 3, 3, 3]));
    var c := Create(m);
    var r := c.router.Scale(4);
    assert r == Response(200, WorkersBody([3, 3, 3, 3]));
    assert m.log == [CallRescale(4), CallGetWorkersStatuses];

    var refusing := new Master("Master", Calm(0, []).(rescale := _ => Rejected(InvalidArgument)));
    c := Create(refusing);
    r := c.router.Scale(4);
    assert r == Response(400, ErrorBody(1003, "Invalid scale size"));
    assert refusing.log == [CallRescale(4)];
  }

  method ShutdownWithFailedWorkers()
  {
    var m := new Master("Master", Calm(1, []).(shutdown := Rejected(WorkerStatus)));
    var c := Create(m);
    var r := c.router.Shutdown();
    assert r == Response(500, ErrorBody(1004, "One or more workers have error state"));
    assert m.log == [CallGracefulShutdown];
  }
}
