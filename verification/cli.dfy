/** The `restart` command of cli/cli.go, reduced to its lifecycle calls. */
module Cli {
  import opened Wrappers
  import opened Lifecycle

  /** How the `restart` command ends. */
  datatype RestartOutcome =
    | StopFailed(stopError: ShutdownError)   // the shutdown reported an error
    | StartFailed(runError: RunError)        // the new `Run` was refused
    | Restarted                              // the deferred batches would be replayed

  /** `restart`: shut down, and only if that reported no error, run again and
      replay the deferred URL batches. Since nothing clears the instance or the
      shutdown flag, the second `Run` is always refused and the replay is never
      reached. `drain` is the transport's drain outcome. */
  method Restart(srv: Server, port: string, drain: Option<DrainError>) returns (outcome: RestartOutcome)
    requires srv.isShutdown || srv.httpServer.Some?
    modifies srv
    ensures !outcome.Restarted?
    ensures srv.isShutdown && srv.httpServer == old(srv.httpServer)
    ensures outcome.StopFailed? <==> !old(srv.isShutdown) && drain.Some?
    ensures outcome.StopFailed? ==> outcome.stopError == ClassifyDrainError(drain.value)
    ensures outcome.StartFailed? ==>
              outcome.runError == if old(srv.httpServer).Some? then AlreadyRunning else StillShuttingDown
  {
    var stopError := srv.GracefulShutdown(drain);
    if stopError.Some? {
      return StopFailed(stopError.value);
    }
    var runError := srv.Run(port);
    if runError.Some? {
      return StartFailed(runError.value);
    }
    // The replay loop over the deferred URL batches would start here.
    assert false;
    outcome := Restarted;
  }
}
