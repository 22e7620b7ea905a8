/** The request handlers of server/server.go that drive the process
    manager: start a named run, stop the current run, stop on shutdown, and
    the host power-off trigger. A reply is its status code and body;
    headers are not modelled. */
module HttpServer {
  import opened Base
  import opened Configuration
  import opened ProcessManagement

  datatype Response = Response(status: int, body: string)

  const StatusOK: int := 200
  const StatusNotFound: int := 404
  const StatusInternalServerError: int := 500

  const ShutdownIssued: string := "Shutdown command issued to PC. The system should shut down shortly."
  const ShutdownFailed: string := "Error sending shutdown command: "

  /** `http.Error`: the status code, and the message followed by a newline. */
  function HttpError(msg: string, code: int): Response
  {
    Response(code, msg + "\n")
  }

  /** The argument vector `handleRun` hands to `exec.Command`: the run's
      command line, run by bash. */
  function RunArgs(p: RunParams): seq<string>
  {
    ["bash", "-c", BuildCommand(p)]
  }

  /** `handleRun`'s reply once `StartProcess` has returned `err`. */
  function RunReply(name: string, err: Outcome): Response
  {
    match err
    case Ok => Response(StatusOK, "Started run: " + name)
    case Err(reason) => HttpError("Error starting run: " + reason, StatusInternalServerError)
  }

  /** One run request for a known run: `StartProcess` of `cmd`, then the
      reply to its result. */
  function RunStep(s: PmState, cmd: Command, kill: Outcome, start: Outcome, name: string): (PmState, Response)
  {
    var (s', err) := StartStep(s, cmd, kill, start);
    (s', RunReply(name, err))
  }

  class Server {
    const cfg: Config
    const pm: ProcessManager

    constructor (cfg: Config, pm: ProcessManager)
      ensures this.cfg == cfg && this.pm == pm
    {
      this.cfg := cfg;
      this.pm := pm;
    }

    /** `handleRun`: an unknown name is answered 404 without touching the
        manager; a known name launches that run's command line. */
    method HandleRun(name: string, kill: Outcome, start: Outcome) returns (resp: Response)
      modifies pm
      ensures NoMatch(cfg.runs, name) ==> resp == HttpError("Run not found", StatusNotFound) && unchanged(pm)
      ensures forall i :: IsFirstMatch(cfg.runs, name, i) ==>
        exists cmd: Command :: fresh(cmd) && cmd.path == "bash" && cmd.args == RunArgs(cfg.runs[i].params)
          && (pm.State(), resp) == RunStep(old(pm.State()), cmd, kill, start, name)
    {
      var r := GetRun(cfg, name);
      if r.None? {
        return HttpError("Run not found", StatusNotFound);
      }
      var run := cfg.runs[r.value];
      var cmd := new Command("bash", RunArgs(run.params));
      var err := pm.StartProcess(cmd, kill, start);
      resp := RunReply(name, err);
      FirstMatchUnique(cfg.runs, name, r.value);
    }

    /** `handleStop`: always 200, and the slot is emptied. */
    method HandleStop(kill: Outcome) returns (resp: Response)
      modifies pm
      ensures pm.State() == StopStep(old(pm.State()), kill) && pm.current == null
      ensures resp == Response(StatusOK, "Stopped current run")
    {
      pm.StopCurrent(kill);
      resp := Response(StatusOK, "Stopped current run");
    }

    /** `Shutdown`: stop whatever runs. */
    method Shutdown(kill: Outcome)
      modifies pm
      ensures pm.State() == StopStep(old(pm.State()), kill) && pm.current == null
    {
      pm.StopCurrent(kill);
    }

    /** `handleShutdown`: issue the power-off command without waiting for
        it; the reply only reports whether it could be started. */
    function HandleShutdown(launch: Outcome): (resp: Response)
      ensures resp.status == StatusOK <==> launch.Ok?
      ensures launch.Ok? ==> resp.body == ShutdownIssued
      ensures launch.Err? ==> (resp.status == StatusInternalServerError
        && |resp.body| > |ShutdownFailed| + 1 && resp.body[..|ShutdownFailed|] == ShutdownFailed)
      ensures launch.Err? ==> resp == HttpError(ShutdownFailed + launch.reason, StatusInternalServerError)
    {
      match launch
      case Ok => Response(StatusOK, ShutdownIssued)
      case Err(reason) => HttpError(ShutdownFailed + reason, StatusInternalServerError)
    }
  }

  lemma FirstMatchUnique(runs: seq<Run>, name: string, i: int)
    requires IsFirstMatch(runs, name, i)
    ensures forall j :: IsFirstMatch(runs, name, j) ==> j == i
  {
  }

  /** What a run request for a known run amounts to, case by case: a
      failed kill of the held command or a failed launch is a 500 carrying
      that error and leaves the slot as it was; otherwise the reply is 200
      and the slot holds the bash command running exactly the run's
      command line. The no-leak invariant is kept in every case. */
  lemma RunStepCases(s: PmState, cmd: Command, p: RunParams, kill: Outcome, start: Outcome, name: string)
    requires cmd.args == RunArgs(p)
    ensures var (s', resp) := RunStep(s, cmd, kill, start, name);
      (s.current != null && kill.Err? ==>
        resp == HttpError("Error starting run: " + kill.reason, StatusInternalServerError) && s'.current == s.current)
      && ((s.current == null || kill.Ok?) && start.Err? ==>
        resp == HttpError("Error starting run: " + start.reason, StatusInternalServerError) && s'.current == s.current)
      && ((s.current == null || kill.Ok?) && start.Ok? ==>
        resp == Response(StatusOK, "Started run: " + name)
        && s'.current == cmd && cmd.args == ["bash", "-c", CommandLine(p)])
      && (NoLeak(s) ==> NoLeak(s'))
  {
  }

  /** The interrupt handler of main.go stops the current run and then calls
      `Shutdown`, which stops again: the second stop does nothing. The two
      calls take the manager's lock one after the other, not together; this
      method models them running back to back. A `handleRun` that slips in
      between would be killed by the second stop, which is not modelled. */
  method OnInterrupt(srv: Server, k1: Outcome, k2: Outcome)
    modifies srv.pm
    ensures srv.pm.State() == StopStep(old(srv.pm.State()), k1)
    ensures srv.pm.current == null
  {
    srv.pm.StopCurrent(k1);
    srv.Shutdown(k2);
    StopTwiceIsStopOnce(old(srv.pm.State()), k1, k2);
  }
}
