/** `utils::execute` and `utils::print_progress`: running one external
    command and forwarding its merged output to the log.

    Spawning, waiting and reading are not performed here. What the operating
    system does with a command is an input, a `Spawn` value: either the spawn
    error, or the merged stdout/stderr stream the drain task will read together
    with the outcome of waiting for the child. The concurrent merge of the two
    streams is represented only by its result, one ordered sequence. */
module Process {
  import opened Results
  import Ascii

  /** A child's exit status; `code` is absent when a signal ended it. */
  datatype ExitStatus = ExitStatus(code: Option<int>)

  /** `ExitStatus::success`: the child exited with code zero. */
  predicate Success(status: ExitStatus) {
    status.code == Some(0)
  }

  /** One item of the merged output stream (`ProcessUpdate`). */
  datatype ProcessUpdate = Line(line: string) | Error(error: string)

  /** Outcome of waiting for a spawned child (`child.await`). */
  datatype Wait = WaitError(cause: string) | Finished(status: ExitStatus)

  /** What spawning a command yields: the spawn error, or the merged output
      stream together with the outcome of waiting for the child. */
  datatype Spawn =
    | SpawnError(cause: string)
    | Spawned(output: seq<ProcessUpdate>, wait: Wait)

  /** Why `execute` failed. */
  datatype ExecError =
    | SpawnFailed(cause: string)
    | WaitFailed(cause: string)
    | ProcessFailed(status: ExitStatus)

  /** The log entry `"[name] " + trim(line)` written for one output line. */
  function Entry(name: string, line: string): string {
    "[" + name + "] " + Ascii.Trim(line)
  }

  /** What the drain loop leaves behind: the log entries it wrote and the
      value it returns. */
  datatype Progress = Progress(log: seq<string>, result: Result<(), string>)

  /** `print_progress`: one log entry per `Line` in stream order, stopping at
      the first `Error`, which is returned; `Ok` when the stream ends cleanly. */
  function PrintProgress(name: string, stream: seq<ProcessUpdate>): (r: Progress)
    ensures |r.log| <= |stream|
    ensures forall i | 0 <= i < |r.log| :: stream[i].Line? && r.log[i] == Entry(name, stream[i].line)
    ensures r.result.Ok? <==> forall i | 0 <= i < |stream| :: stream[i].Line?
    ensures r.result.Ok? ==> |r.log| == |stream|
    ensures r.result.Err? ==> |r.log| < |stream| && stream[|r.log|] == Error(r.result.error)
  {
    if stream == [] then Progress([], Ok(()))
    else match stream[0]
      case Error(e) => Progress([], Err(e))
      case Line(line) =>
        var rest := PrintProgress(name, stream[1..]);
        Progress([Entry(name, line)] + rest.log, rest.result)
  }

  /** What one `execute` call amounts to: its result, and the log entries the
      detached drain task writes for the child's output. */
  datatype Execution = Execution(result: Result<(), ExecError>, log: seq<string>)

  /** `execute`: a spawn failure is returned before any output is handled;
      otherwise the drain task is started and never awaited, and the result
      depends only on waiting for the child: `Ok` exactly on a successful
      exit status. */
  function Execute(name: string, spawn: Spawn): (r: Execution)
    ensures spawn.SpawnError? ==> r == Execution(Err(SpawnFailed(spawn.cause)), [])
    ensures r.result.Ok? <==> spawn.Spawned? && spawn.wait.Finished? && Success(spawn.wait.status)
    ensures spawn.Spawned? && spawn.wait.WaitError? ==> r.result == Err(WaitFailed(spawn.wait.cause))
    ensures spawn.Spawned? && spawn.wait.Finished? && !Success(spawn.wait.status)
      ==> r.result == Err(ProcessFailed(spawn.wait.status))
    ensures spawn.Spawned? ==> r.log == PrintProgress(name, spawn.output).log
  {
    match spawn
    case SpawnError(cause) => Execution(Err(SpawnFailed(cause)), [])
    case Spawned(output, wait) =>
      var log := PrintProgress(name, output).log;
      match wait
      case WaitError(cause) => Execution(Err(WaitFailed(cause)), log)
      case Finished(status) =>
        if Success(status) then Execution(Ok(()), log)
        else Execution(Err(ProcessFailed(status)), log)
  }

  /** The result of `execute` does not depend on the output stream, nor on
      whether draining it ended in an error. */
  lemma ExecuteIgnoresOutput(name: string, out1: seq<ProcessUpdate>, out2: seq<ProcessUpdate>, wait: Wait)
    ensures Execute(name, Spawned(out1, wait)).result == Execute(name, Spawned(out2, wait)).result
  {
  }
}
