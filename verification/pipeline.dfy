/** The body of the supervisor's background task (`Server::setup` and the
    four `run_*` stages): which commands it runs, in which order, and which
    status events it sends.

    Every external command is handed to `Process.Execute`; what the system
    does when a command is spawned is the input `world`. The version query
    goes through `utils::aquire_output`, which is not part of this model; its
    result is the input `query`. */
module Pipeline {
  import opened Results
  import Process

  /** `ServerStatus`: the observable status values, plus `Version`, which
      carries the short commit hash on the same channel. */
  datatype ServerStatus =
    | Offline
    | Updating
    | Version(hash: string)
    | Compiling
    | Online
    | UpdateFailed
    | CompileFailed
    | RunFailed
  {
    predicate IsFailure() {
      UpdateFailed? || CompileFailed? || RunFailed?
    }
  }

  /** `Display for ServerStatus`; a `Version` value is never displayed (the
      source treats it as unreachable). */
  function Display(status: ServerStatus): (r: string)
    requires !status.Version?
    ensures status.IsFailure() <==> r in ["Failed to update", "Compile Failed", "Starting Failed"]
    ensures (status.Updating? || status.Compiling?) <==> (|r| > 3 && r[|r| - 3..] == "...")
  {
    match status
    case Offline => "Offline"
    case Updating => "Updating..."
    case Compiling => "Compiling..."
    case Online => "Online"
    case UpdateFailed => "Failed to update"
    case CompileFailed => "Compile Failed"
    case RunFailed => "Starting Failed"
  }

  /** Different statuses are displayed differently. */
  lemma DisplayInjective(a: ServerStatus, b: ServerStatus)
    requires !a.Version? && !b.Version?
    requires Display(a) == Display(b)
    ensures a == b
  {
  }

  /** The revision to build: a branch name or a commit hash. */
  datatype Rev = Branch(branch: string) | Commit(commit: string)

  /** `rev.to_string()`: the branch name or the commit hash. */
  function RevName(rev: Rev): string {
    match rev
    case Branch(b) => b
    case Commit(c) => c
  }

  /** A configured `tokio::process::Command`. */
  datatype Command = Command(
    program: string,
    args: seq<string>,
    dir: string,
    envRemove: set<string>,
    envs: map<string, string>)

  const WorkTree := "veloren"
  const ServerBin := "veloren-server-cli"

  function Git(args: seq<string>): Command {
    Command("git", args, WorkTree, {}, map[])
  }

  function FetchCommand(): Command {
    Git(["fetch", "--all"])
  }

  function CheckoutCommand(rev: Rev): Command {
    Git(["checkout", RevName(rev), "-f"])
  }

  /** The hard reset targets `origin/<branch>` for a branch and the raw hash
      for a commit. */
  function ResetCommand(rev: Rev): Command {
    match rev
    case Branch(b) => Git(["reset", "--hard", "origin/" + b])
    case Commit(c) => Git(["reset", "--hard", c])
  }

  function VersionCommand(): Command {
    Git(["rev-parse", "--short", "HEAD"])
  }

  function CompileCommand(cargoArgs: seq<string>): Command {
    Command("cargo", ["build", "--bin", ServerBin] + cargoArgs, WorkTree, {"RUSTUP_TOOLCHAIN"}, map[])
  }

  function ServerCommand(args: seq<string>, cargoArgs: seq<string>, envs: map<string, string>): Command {
    Command("cargo", ["run", "--bin", ServerBin] + cargoArgs + ["--"] + args, WorkTree, {"RUSTUP_TOOLCHAIN"}, envs)
  }

  /** The `cargo clean` run by `Server::clean`. */
  function CleanCommand(): Command {
    Command("cargo", ["clean"], WorkTree, {}, map[])
  }

  /** The build and the run name the same binary with the same cargo
      arguments, and the server's own arguments come after the "--". */
  lemma BuildAndRunAgree(args: seq<string>, cargoArgs: seq<string>, envs: map<string, string>)
    ensures CompileCommand(cargoArgs).args[1..] == ["--bin", ServerBin] + cargoArgs
    ensures ServerCommand(args, cargoArgs, envs).args[1..3 + |cargoArgs|] == ["--bin", ServerBin] + cargoArgs
    ensures ServerCommand(args, cargoArgs, envs).args[3 + |cargoArgs|] == "--"
    ensures ServerCommand(args, cargoArgs, envs).args[4 + |cargoArgs|..] == args
    ensures ServerCommand(args, cargoArgs, envs).envs == envs
  {
  }

  /** How the system answers each spawned command. */
  type World = Command -> Process.Spawn
  /** How the system answers the version query. */
  type Query = Command -> Result<string, string>

  /** `execute(name, cmd)` succeeded. */
  predicate Succeeds(world: World, name: string, cmd: Command) {
    Process.Execute(name, world(cmd)).result.Ok?
  }

  /** The state threaded through the stages: whether the reporter is still
      held (it is taken on the first failure), the events sent so far and
      the commands run so far. */
  datatype Run = Run(live: bool, events: seq<ServerStatus>, ran: seq<Command>)

  function Send(r: Run, status: ServerStatus): Run {
    r.(events := r.events + [status])
  }

  /** A stage after a failure is silent; a stage only appends; a stage that
      drops the reporter has just sent a failure. */
  predicate StageStep(r: Run, r': Run) {
    && (!r.live ==> r' == r)
    && |r.events| <= |r'.events| && r'.events[..|r.events|] == r.events
    && |r.ran| <= |r'.ran| && r'.ran[..|r.ran|] == r.ran
    && (r.live && !r'.live ==> |r'.events| > |r.events| && r'.events[|r'.events| - 1].IsFailure())
  }

  /** fetch, checkout and reset all succeed. */
  predicate UpdateSucceeds(rev: Rev, world: World) {
    && Succeeds(world, "git", FetchCommand())
    && Succeeds(world, "git", CheckoutCommand(rev))
    && Succeeds(world, "git", ResetCommand(rev))
  }

  /** `run_update`: send `Updating`, then run fetch, checkout and reset in
      order; the first that fails sends `UpdateFailed` and takes the
      reporter, and the remaining ones are not run. */
  function RunUpdate(r: Run, rev: Rev, world: World): (r': Run)
    ensures StageStep(r, r')
    ensures r.live ==> r'.events == r.events + (if r'.live then [Updating] else [Updating, UpdateFailed])
    ensures r.live ==> r'.live == UpdateSucceeds(rev, world)
    ensures r.live && !Succeeds(world, "git", FetchCommand()) ==> r'.ran == r.ran + [FetchCommand()]
    ensures r.live && Succeeds(world, "git", FetchCommand()) && !Succeeds(world, "git", CheckoutCommand(rev))
      ==> r'.ran == r.ran + [FetchCommand(), CheckoutCommand(rev)]
    ensures r.live && Succeeds(world, "git", FetchCommand()) && Succeeds(world, "git", CheckoutCommand(rev))
      ==> r'.ran == r.ran + [FetchCommand(), CheckoutCommand(rev), ResetCommand(rev)]
  {
    if !r.live then r
    else
      var r1 := Send(r, Updating);
      var fetch, checkout, reset := FetchCommand(), CheckoutCommand(rev), ResetCommand(rev);
      if !Succeeds(world, "git", fetch) then
        Send(r1, UpdateFailed).(live := false, ran := r.ran + [fetch])
      else if !Succeeds(world, "git", checkout) then
        Send(r1, UpdateFailed).(live := false, ran := r.ran + [fetch, checkout])
      else if !Succeeds(world, "git", reset) then
        Send(r1, UpdateFailed).(live := false, ran := r.ran + [fetch, checkout, reset])
      else
        r1.(ran := r.ran + [fetch, checkout, reset])
  }

  /** `run_version`: query the short hash of HEAD; send it as `Version`, or
      send `UpdateFailed` and take the reporter. Nothing is sent first. */
  function RunVersion(r: Run, query: Query): (r': Run)
    ensures StageStep(r, r')
    ensures r.live ==> r'.ran == r.ran + [VersionCommand()]
    ensures r.live && query(VersionCommand()).Ok? ==> r'.live && r'.events == r.events + [Version(query(VersionCommand()).value)]
    ensures r.live && query(VersionCommand()).Err? ==> !r'.live && r'.events == r.events + [UpdateFailed]
  {
    if !r.live then r
    else
      var cmd := VersionCommand();
      var r1 := r.(ran := r.ran + [cmd]);
      match query(cmd)
      case Ok(hash) => Send(r1, Version(hash))
      case Err(_) => Send(r1, UpdateFailed).(live := false)
  }

  /** `run_compile`: send `Compiling`, build the server binary; a failed
      build sends `CompileFailed` and takes the reporter. */
  function RunCompile(r: Run, cargoArgs: seq<string>, world: World): (r': Run)
    ensures StageStep(r, r')
    ensures r.live ==> r'.ran == r.ran + [CompileCommand(cargoArgs)]
    ensures r.live ==> r'.live == Succeeds(world, "cargo", CompileCommand(cargoArgs))
    ensures r.live ==> r'.events == r.events + (if r'.live then [Compiling] else [Compiling, CompileFailed])
  {
    if !r.live then r
    else
      var cmd := CompileCommand(cargoArgs);
      var r1 := Send(r, Compiling).(ran := r.ran + [cmd]);
      if Succeeds(world, "cargo", cmd) then r1
      else Send(r1, CompileFailed).(live := false)
  }

  /** `run_server`: send `Online` and run the server until it exits; a
      failed run sends `RunFailed`. A clean exit sends nothing. */
  function RunServer(r: Run, args: seq<string>, cargoArgs: seq<string>, envs: map<string, string>, world: World): (r': Run)
    ensures StageStep(r, r')
    ensures r.live ==> r'.ran == r.ran + [ServerCommand(args, cargoArgs, envs)]
    ensures r.live ==> r'.live == Succeeds(world, "veloren", ServerCommand(args, cargoArgs, envs))
    ensures r.live ==> r'.events == r.events + (if r'.live then [Online] else [Online, RunFailed])
  {
    if !r.live then r
    else
      var cmd := ServerCommand(args, cargoArgs, envs);
      var r1 := Send(r, Online).(ran := r.ran + [cmd]);
      if Succeeds(world, "veloren", cmd) then r1
      else Send(r1, RunFailed).(live := false)
  }

  /** The traces a run can send, in closed form: the update (or the version
      query) failed; the build failed; the run failed; or the server came up
      (and, if it later exits cleanly, nothing more is sent). */
  predicate WellFormedTrace(t: seq<ServerStatus>) {
    || t == [Updating, UpdateFailed]
    || (|t| == 4 && t[0] == Updating && t[1].Version? && t[2] == Compiling
        && (t[3] == CompileFailed || t[3] == Online))
    || (|t| == 5 && t[0] == Updating && t[1].Version? && t[2] == Compiling
        && t[3] == Online && t[4] == RunFailed)
  }

  /** Every well-formed trace starts with `Updating`, never contains
      `Offline`, and holds a failure only as its last event. */
  lemma WellFormedTraceShape(t: seq<ServerStatus>)
    requires WellFormedTrace(t)
    ensures |t| >= 2 && t[0] == Updating
    ensures Offline !in t
    ensures forall i | 0 <= i < |t| && t[i].IsFailure() :: i == |t| - 1
  {
  }

  /** `setup`: the four stages in order, with one reporter that the first
      failure takes, so every later stage is silent and runs nothing. The
      run has failed exactly when its last event is a failure. */
  function Setup(rev: Rev, args: seq<string>, cargoArgs: seq<string>, envs: map<string, string>,
                 world: World, query: Query): (r: Run)
    ensures WellFormedTrace(r.events)
    ensures !r.live <==> r.events[|r.events| - 1].IsFailure()
  {
    var r0 := Run(true, [], []);
    var r1 := RunUpdate(r0, rev, world);
    var r2 := RunVersion(r1, query);
    var r3 := RunCompile(r2, cargoArgs, world);
    RunServer(r3, args, cargoArgs, envs, world)
  }

  /** A failing fetch, checkout or reset: `[Updating, UpdateFailed]`, and
      only the update commands up to the failing one were run. */
  lemma SetupUpdateFails(rev: Rev, args: seq<string>, cargoArgs: seq<string>, envs: map<string, string>,
                         world: World, query: Query)
    requires !UpdateSucceeds(rev, world)
    ensures
      var r := Setup(rev, args, cargoArgs, envs, world, query);
      && r.events == [Updating, UpdateFailed]
      && 1 <= |r.ran| <= 3
      && r.ran == [FetchCommand(), CheckoutCommand(rev), ResetCommand(rev)][..|r.ran|]
      && !Succeeds(world, "git", r.ran[|r.ran| - 1])
  {
  }

  /** A failing version query also ends the run with `UpdateFailed`,
      before anything is built. */
  lemma SetupVersionFails(rev: Rev, args: seq<string>, cargoArgs: seq<string>, envs: map<string, string>,
                          world: World, query: Query)
    requires UpdateSucceeds(rev, world) && query(VersionCommand()).Err?
    ensures
      var r := Setup(rev, args, cargoArgs, envs, world, query);
      && r.events == [Updating, UpdateFailed]
      && r.ran == [FetchCommand(), CheckoutCommand(rev), ResetCommand(rev), VersionCommand()]
  {
  }

  /** A failing build: `[Updating, Version v, Compiling, CompileFailed]`;
      the server is never started. */
  lemma SetupCompileFails(rev: Rev, args: seq<string>, cargoArgs: seq<string>, envs: map<string, string>,
                          world: World, query: Query)
    requires UpdateSucceeds(rev, world) && query(VersionCommand()).Ok?
    requires !Succeeds(world, "cargo", CompileCommand(cargoArgs))
    ensures
      var r := Setup(rev, args, cargoArgs, envs, world, query);
      && r.events == [Updating, Version(query(VersionCommand()).value), Compiling, CompileFailed]
      && r.ran == [FetchCommand(), CheckoutCommand(rev), ResetCommand(rev), VersionCommand(), CompileCommand(cargoArgs)]
  {
  }

  /** The server was started: `[Updating, Version v, Compiling, Online]`,
      followed by `RunFailed` if it failed and by nothing if it exited cleanly. */
  lemma SetupServerStarted(rev: Rev, args: seq<string>, cargoArgs: seq<string>, envs: map<string, string>,
                           world: World, query: Query)
    requires UpdateSucceeds(rev, world) && query(VersionCommand()).Ok?
    requires Succeeds(world, "cargo", CompileCommand(cargoArgs))
    ensures
      var r := Setup(rev, args, cargoArgs, envs, world, query);
      var started := [Updating, Version(query(VersionCommand()).value), Compiling, Online];
      && r.events == started + (if Succeeds(world, "veloren", ServerCommand(args, cargoArgs, envs)) then [] else [RunFailed])
      && r.ran == [FetchCommand(), CheckoutCommand(rev), ResetCommand(rev), VersionCommand(),
                   CompileCommand(cargoArgs), ServerCommand(args, cargoArgs, envs)]
  {
  }
}
