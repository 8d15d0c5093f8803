/**
 * The orchestrator as the router sees it: six operations, each call recorded
 * in a log, each outcome fixed in advance. The real worker-fleet supervisor is
 * not part of this model; an instance of `Master` stands for any orchestrator
 * whose operations behave as its script says.
 */
module Orchestrator {
  import opened Responses

  /** How a command (start, rescale, graceful shutdown or reload) ends. */
  datatype Outcome = Resolved | Rejected(kind: ErrorKind)

  /** How a query (status or worker statuses) ends. */
  datatype Result<T> = Ok(value: T) | Err(kind: ErrorKind)

  /** One call made on the orchestrator, with its argument. */
  datatype Call =
    | CallStart
    | CallRescale(size: int)
    | CallGracefulShutdown
    | CallGracefulReload
    | CallGetStatus
    | CallGetWorkersStatuses

  /** What each operation answers. `rescale` may depend on the requested size. */
  datatype Script = Script(
    status: Result<int>,
    workers: Result<seq<int>>,
    start: Outcome,
    rescale: int -> Outcome,
    shutdown: Outcome,
    reload: Outcome)

  /** The number of times `c` occurs in `log`. */
  function Count(log: seq<Call>, c: Call): (n: nat)
    ensures n <= |log|
    ensures n == 0 <==> c !in log
  {
    if log == [] then 0
    else (if log[0] == c then 1 else 0) + Count(log[1..], c)
  }

  /** Counting distributes over the concatenation of two logs. */
  lemma {:induction false} CountConcat(a: seq<Call>, b: seq<Call>, c: Call)
    ensures Count(a + b, c) == Count(a, c) + Count(b, c)
  {
    if a == [] {
      assert a + b == b;
    } else {
      assert (a + b)[1..] == a[1..] + b;
      CountConcat(a[1..], b, c);
    }
  }

  /** An orchestrator whose operations follow `script` and append to `log`.
      `className` is the name of the object's class. */
  class Master {
    const className: string
    const script: Script
    var log: seq<Call>

    constructor (className: string, script: Script)
      ensures this.className == className && this.script == script
      ensures log == []
    {
      this.className := className;
      this.script := script;
      log := [];
    }

    method Start() returns (o: Outcome)
      modifies this
      ensures log == old(log) + [CallStart]
      ensures o == script.start
    {
      log := log + [CallStart];
      o := script.start;
    }

    method Rescale(size: int) returns (o: Outcome)
      modifies this
      ensures log == old(log) + [CallRescale(size)]
      ensures o == script.rescale(size)
    {
      log := log + [CallRescale(size)];
      o := script.rescale(size);
    }

    method GracefulShutdown() returns (o: Outcome)
      modifies this
      ensures log == old(log) + [CallGracefulShutdown]
      ensures o == script.shutdown
    {
      log := log + [CallGracefulShutdown];
      o := script.shutdown;
    }

    method GracefulReload() returns (o: Outcome)
      modifies this
      ensures log == old(log) + [CallGracefulReload]
      ensures o == script.reload
    {
      log := log + [CallGracefulReload];
      o := script.reload;
    }

    method GetStatus() returns (r: Result<int>)
      modifies this
      ensures log == old(log) + [CallGetStatus]
      ensures r == script.status
    {
      log := log + [CallGetStatus];
      r := script.status;
    }

    method GetWorkersStatuses() returns (r: Result<seq<int>>)
      modifies this
      ensures log == old(log) + [CallGetWorkersStatuses]
      ensures r == script.workers
    {
      log := log + [CallGetWorkersStatuses];
      r := script.workers;
    }
  }
}
