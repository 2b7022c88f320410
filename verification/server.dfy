/** The server lifecycle of server/server.go: whether an HTTP server instance
    has been created, and the shutdown flag. */
module Lifecycle {
  import opened Wrappers

  /** Seconds the transport is given to drain before the deadline (server.go:15). */
  const ShutdownTimeoutSeconds: int := 30

  /** Why `Run` refuses to start. */
  datatype RunError =
    | AlreadyRunning      // an instance is already set
    | StillShuttingDown   // the shutdown flag is set

  /** How the transport's drain can fail, as `errors.Is` tells them apart. */
  datatype DrainError =
    | Canceled                   // the drain's context was cancelled
    | DeadlineExceeded           // the drain outlived its deadline
    | OtherFailure(cause: string) // a network or system error

  /** The error `GracefulShutdown` reports for a failed drain. */
  datatype ShutdownError =
    | StoppedEarly                        // forced: context cancelled
    | TimedOut(seconds: int)              // did not finish within the timeout
    | Unexpected(cause: DrainError)       // anything else, wrapped

  /** The two facts the lifecycle is made of. */
  datatype Flags = Flags(hasInstance: bool, isShutdown: bool)

  /** The guard of `Run`: the instance check comes before the flag check. */
  function RunVerdict(f: Flags): (err: Option<RunError>)
    ensures err == Some(AlreadyRunning) <==> f.hasInstance
    ensures err == Some(StillShuttingDown) <==> !f.hasInstance && f.isShutdown
    ensures err == None <==> !f.hasInstance && !f.isShutdown
  {
    if f.hasInstance then Some(AlreadyRunning)
    else if f.isShutdown then Some(StillShuttingDown)
    else None
  }

  /** The flags after `Run`: an instance is created only when the guard lets
      the call through; a refused call changes nothing, and the shutdown flag
      is never touched. */
  function AfterRun(f: Flags): (g: Flags)
    ensures g.isShutdown == f.isShutdown
    ensures g.hasInstance <==> f.hasInstance || RunVerdict(f) == None
    ensures RunVerdict(f) != None ==> g == f
  {
    if RunVerdict(f) == None then f.(hasInstance := true) else f
  }

  /** The flags after `GracefulShutdown`, whatever the drain's outcome. */
  function AfterShutdown(f: Flags): (g: Flags)
    ensures g.isShutdown && g.hasInstance == f.hasInstance
  {
    f.(isShutdown := true)
  }

  /** The classification of a failed drain (server.go:79-89). */
  function ClassifyDrainError(e: DrainError): (err: ShutdownError)
    ensures err == StoppedEarly <==> e == Canceled
    ensures err.TimedOut? <==> e == DeadlineExceeded
    ensures err.TimedOut? ==> err.seconds == ShutdownTimeoutSeconds
    ensures err.Unexpected? <==> e.OtherFailure?
    ensures err.Unexpected? ==> err.cause == e
  {
    match e
    case Canceled => StoppedEarly
    case DeadlineExceeded => TimedOut(ShutdownTimeoutSeconds)
    case OtherFailure(_) => Unexpected(e)
  }

  /** `Server`: the process-wide server state. `httpServer` holds the address of
      the created `http.Server` (None while the pointer is nil). */
  class Server {
    var httpServer: Option<string>
    var isShutdown: bool

    function State(): Flags
      reads this
    {
      Flags(httpServer.Some?, isShutdown)
    }

    /** The zero value `Server{}`: no instance, flag clear. */
    constructor ()
      ensures httpServer == None && !isShutdown
    {
      httpServer := None;
      isShutdown := false;
    }

    /** Creates the HTTP server for `port` unless one exists or a shutdown has
        been requested; listening itself is not modelled. */
    method Run(port: string) returns (err: Option<RunError>)
      modifies this
      ensures err == RunVerdict(old(State()))
      ensures State() == AfterRun(old(State()))
      ensures err == None ==> httpServer == Some(":" + port)
      ensures err != None ==> httpServer == old(httpServer)
    {
      if httpServer.Some? {
        return Some(AlreadyRunning);
      }
      if isShutdown {
        return Some(StillShuttingDown);
      }
      httpServer := Some(":" + port);
      err := None;
    }

    /** Sets the shutdown flag, then drains the transport; `drain` is the
        transport's outcome (None on success). The drain dereferences the
        instance, hence the precondition when the flag is still clear. */
    method GracefulShutdown(drain: Option<DrainError>) returns (err: Option<ShutdownError>)
      requires isShutdown || httpServer.Some?
      modifies this
      ensures State() == AfterShutdown(old(State())) && httpServer == old(httpServer)
      ensures old(isShutdown) ==> err == None
      ensures !old(isShutdown) ==> err == if drain.None? then None else Some(ClassifyDrainError(drain.value))
    {
      if isShutdown {
        return None;
      }
      isShutdown := true;
      if drain.Some? {
        return Some(ClassifyDrainError(drain.value));
      }
      err := None;
    }

    /** Read-only query of the shutdown flag. */
    method IsShutdown() returns (b: bool)
      ensures b == isShutdown
    {
      b := isShutdown;
    }
  }

  /** A call that changes the lifecycle flags. */
  datatype Call = RunCall | ShutdownCall

  /** The flags after one call. */
  function Step(f: Flags, c: Call): (g: Flags)
  {
    match c
    case RunCall => AfterRun(f)
    case ShutdownCall => AfterShutdown(f)
  }

  /** The flags after a sequence of calls. */
  function Replay(f: Flags, calls: seq<Call>): (g: Flags)
    decreases |calls|
  {
    if calls == [] then f else Replay(Step(f, calls[0]), calls[1..])
  }

  /** No call clears either fact: once set, the instance and the shutdown flag
      stay set whatever follows. */
  lemma {:induction false} NothingClearsFlags(f: Flags, calls: seq<Call>)
    ensures f.hasInstance ==> Replay(f, calls).hasInstance
    ensures f.isShutdown ==> Replay(f, calls).isShutdown
    decreases |calls|
  {
    if calls != [] {
      NothingClearsFlags(Step(f, calls[0]), calls[1..]);
    }
  }

  /** Once a shutdown has been requested, every later `Run` is refused, after
      any sequence of further calls. */
  lemma {:induction false} RunRefusedAfterShutdown(f: Flags, calls: seq<Call>)
    requires f.isShutdown
    ensures RunVerdict(Replay(f, calls)).Some?
  {
    NothingClearsFlags(f, calls);
  }

  /** `GracefulShutdown` followed by `Run`, in any state where the shutdown may
      be called, always ends in a refused `Run`. */
  lemma {:induction false} RunRefusedAfterAnyShutdown(f: Flags, calls: seq<Call>)
    ensures RunVerdict(Replay(AfterShutdown(f), calls)).Some?
  {
    RunRefusedAfterShutdown(AfterShutdown(f), calls);
  }
}
