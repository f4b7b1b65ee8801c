# Veloren server bot: supervisor and command cores in Dafny

This project models the core of a Discord bot that builds and runs a Veloren
game server. The centre is the game-server supervisor `Server`. It owns at most
one background task. That task runs the pipeline: update the git work tree,
query the short commit hash, build `veloren-server-cli` with cargo, and run it.
The task reports its progress as `ServerStatus` events over a channel, and
`status()` drains that channel before it answers. Around it are the smaller
pure cores:

- the command runner `execute` and its output-draining loop `print_progress`;
- the case-insensitive keyword parsers of the `files` and admin commands;
- the two file-name-to-path tables;
- the bot state's head and admin-set bookkeeping;
- the `is_admin` and `is_owner` permission checks.

## How the model is built

- **External commands are inputs.** The pipeline gets a `World`, which says
  what spawning each `Command` yields. That is either a spawn error, or the
  merged output stream together with the result of waiting for the child.
  Every command except the version query goes through `Process.Execute`.
  The version query (`utils::aquire_output`) is the input `Query`.
- **The pipeline is a pure function.** `Pipeline.Setup` maps those inputs to
  a `Run`: the status events sent, in order, and the commands run, in order.
  The reporter is `Some` until the first failure takes it. The model keeps
  this as a `live` flag, so every stage after a failure is silent and runs
  nothing.
- **The supervisor is a state machine over that trace.** `Supervisor.Server`
  holds an optional queue (the channel receiver), an optional `Task`, the
  sticky status and the sticky version. A `Task` holds its trace and how much
  of it was sent. The environment step `Deliver` moves the task's next
  events into the queue. Cancelling the task in `Stop` means only the prefix
  sent so far ever reached the queue.
- **`Valid` is the invariant.** It describes the reachable states. `New`,
  `Start`, `Stop`, `Restart`, `Clean`, `Deliver` and `Status` all preserve it.
  Among other things, it says the stored status is never a `Version`. So
  the status a caller displays never reaches the `unreachable!` branch of
  `Display`.
- **Status reading is proved two ways.** `Status` drains the queue front to
  back, as the source's loop does. A lemma proves the result equals an
  independent reading from the end of the queue (`LastStatus` and
  `LastVersion`).
- **`start` is modelled by `Start`.** The source's `start` only forwards to
  the private `run`. `Restart` and `Clean` call `Start` where the source
  calls `run`.

### Behaviour of the code worth knowing

- A server that exits cleanly sends nothing after `Online`. No `Offline`
  event is sent (src/server/mod.rs:302-306).
- The update stage runs `git fetch --all`, then `git checkout <rev> -f`,
  then `git reset --hard`. The reset target is `origin/<branch>` for a
  branch and the raw hash for a commit. There is no branch-then-commit
  fallback and no `ls-remote` check.
- `stop` leaves the channel receiver in place. Events that were queued but
  not yet drained are applied by the next `status()` call. They can
  overwrite the `Offline` that `stop` wrote, so `status()` after `stop`
  reports `Offline` only when no non-`Version` event is pending
  (`StopKeepsPendingEvents`). A later `start` installs a fresh queue, and
  any events still pending are lost.
- A finished pipeline does not clear the task slot. `start` keeps returning
  false until `stop`, `restart` or `clean` runs.
- The two file tables use different roots. The `files` command uses
  `veloren/userdata/...`. The admin `File::path` uses
  `veloren/target/debug/userdata/...`.

## Model

| member | source | states |
|---|---|---|
| Process.PrintProgress | src/utils.rs:34-57 | one log entry `"[name] " + trim(line)` per `Line`, in stream order, up to the first `Error`. That error is returned and nothing after it is logged. `Ok` exactly when the stream holds no `Error`. |
| Process.Execute | src/utils.rs:8-26 | a spawn failure is returned before any output is handled. Otherwise the result is `Ok` exactly when the child exits with a success status, and a failed wait or a non-success status gives the matching error. The drain's log is `print_progress`'s log of the output, so it stops at the first stream error. |
| Process.ExecuteIgnoresOutput | src/utils.rs:18-19 | the result of `execute` does not depend on the output stream or on how draining it ended, because the drain task is never awaited. |
| Pipeline.Display | src/server/mod.rs:32-47 | the user-facing text of every status except `Version`, which the source declares unreachable. Exactly the three failures show a failure text, and exactly `Updating` and `Compiling` end in "...". |
| Pipeline.DisplayInjective | src/server/mod.rs:32-47 | the `Display` texts of different statuses differ (`Version` is never displayed). |
| Pipeline.BuildAndRunAgree | src/server/mod.rs:261-298 | the build and the run name the same binary with the same cargo arguments. The server's own arguments follow the `--`, and its environment is the given map. |
| Pipeline.RunUpdate | src/server/mod.rs:183-224 | sends `Updating`, then runs fetch, checkout and reset in that order. The first failure sends `UpdateFailed`, drops the reporter and skips the remaining commands. After an earlier failure it is silent. |
| Pipeline.RunVersion | src/server/mod.rs:226-249 | queries the short hash. It sends `Version(hash)`, or sends `UpdateFailed` and drops the reporter. After an earlier failure it is silent. |
| Pipeline.RunCompile | src/server/mod.rs:251-275 | sends `Compiling` and runs the build. A failed build sends `CompileFailed` and drops the reporter. After an earlier failure it is silent. |
| Pipeline.RunServer | src/server/mod.rs:277-307 | sends `Online` and runs the server. A failed run sends `RunFailed`. A clean exit sends nothing. After an earlier failure it is silent. |
| Pipeline.Setup | src/server/mod.rs:165-181 | every trace is one of the closed forms: update failed, build failed, run failed, or server up. The run has failed exactly when its last event is a failure. |
| Pipeline.WellFormedTraceShape | src/server/mod.rs:165-181 | every pipeline trace starts with `Updating` and never contains `Offline`. A failure can only be its last event. |
| Pipeline.SetupUpdateFails | src/server/mod.rs:183-224 | a failing fetch, checkout or reset gives `[Updating, UpdateFailed]`. Only the update commands up to the failing one were run. |
| Pipeline.SetupVersionFails | src/server/mod.rs:226-249 | a failing version query gives `[Updating, UpdateFailed]`, and nothing is built. |
| Pipeline.SetupCompileFails | src/server/mod.rs:251-275 | a failing build gives `[Updating, Version v, Compiling, CompileFailed]`, and the server is never started. |
| Pipeline.SetupServerStarted | src/server/mod.rs:277-307 | after a good build the trace is `[Updating, Version v, Compiling, Online]`, plus `RunFailed` when the server run fails. All six commands ran. |
| Supervisor.New | src/server/mod.rs:58-63 | a fresh server has no task, no reporter, status `Offline` and no version. |
| Supervisor.Start | src/server/mod.rs:142-163 | with a task present, nothing changes and the result is false. Otherwise a fresh empty queue and a task for this run's trace are installed, and the result is true. Status and version are kept either way. |
| Supervisor.Stop | src/server/mod.rs:77-85 | with a task: the task is gone, the status is `Offline`, the result is true, and the queue and version are untouched. Without a task: false, and no change. |
| Supervisor.Restart | src/server/mod.rs:87-96 | afterwards a task for the new run is present with an empty queue. The status is `Offline` if a task was running and unchanged otherwise. The version is kept. |
| Supervisor.Clean | src/server/mod.rs:116-140 | always stops first. The result is true exactly when `cargo clean` succeeds. On failure no task is left; on success a new run is started. |
| Supervisor.Drain | src/server/mod.rs:101-106 | the `while let` loop over the queue. The final status is the starting one or a queued event, and it is never a `Version` when the starting one is not. The final version is the starting one or the hash of a queued `Version` event. |
| Supervisor.DrainIsLast | src/server/mod.rs:98-110 | the front-to-back drain loop ends with the status of the last non-`Version` event and the hash of the last `Version` event, each defaulting to the previous value. |
| Supervisor.Status | src/server/mod.rs:98-110 | drains the whole queue. `Version` events only set the version, and every other event overwrites the status. Returns the resulting status. Without a reporter nothing changes. |
| Supervisor.StatusIdempotent | src/server/mod.rs:98-110 | a second `status()` with no new events returns the same value and leaves the same state. |
| Supervisor.Deliver | src/server/mod.rs:165-181 | the task sends the next events of its trace, in order, into the queue the server holds. Status and version do not change until a drain. |
| Supervisor.NewValid | src/server/mod.rs:58-63 | the initial state satisfies the invariant. |
| Supervisor.StartValid | src/server/mod.rs:142-163 | `start` preserves the invariant. |
| Supervisor.StopValid | src/server/mod.rs:77-85 | `stop` preserves the invariant. |
| Supervisor.RestartValid | src/server/mod.rs:87-96 | `restart` preserves the invariant. |
| Supervisor.CleanValid | src/server/mod.rs:116-140 | `clean` preserves the invariant. |
| Supervisor.DeliverValid | src/server/mod.rs:172-181 | the task's progress preserves the invariant: the queue stays the sent-but-undrained slice of the trace. |
| Supervisor.StatusNeverVersion | src/server/mod.rs:42-44 | on a reachable server, `status()` never returns a `Version`, so the `unreachable!` branch of `Display` is never hit by a caller that displays the status. |
| Supervisor.StatusValid | src/server/mod.rs:98-110 | draining preserves the invariant. |
| Supervisor.StatusShowsSentPrefix | src/server/mod.rs:98-110 | once the running task has sent at least one event, `status()` returns the reading of everything it has sent so far. |
| Supervisor.FailureIsFinal | src/server/mod.rs:165-181 | once `status()` reports a failure for the running task, no later delivery and drain changes it. |
| Supervisor.StopKeepsPendingEvents | src/server/mod.rs:77-110 | `status()` after `stop` applies the pending events. It reports `Offline` exactly when those events are all `Version` events. |
| Supervisor.VersionIsSticky | src/server/mod.rs:98-114 | `stop`, `start`, `restart` and `clean` keep the version. `status()` replaces it only with the hash of a queued `Version` event. |
| FileCommands.ParseOperation | src/commands/files.rs:34-46 | the lower-cased input selects the operation whose aliases contain it. Anything else is `Err("Unknown Operation")`. |
| FileCommands.AliasesParse | src/commands/files.rs:38-42 | "upload"/"up", "remove"/"rm", "view"/"v" and "list"/"ls" parse to their operations, in any letter case. |
| FileCommands.ParseOperationIgnoresCase | src/commands/files.rs:38 | `s` and `lower(s)` parse alike. |
| FileCommands.AliasesDisjoint | src/commands/files.rs:39-42 | no keyword is an alias of two operations. |
| FileCommands.ParseFile | src/commands/files.rs:51-60 | succeeds exactly when the lower-cased name is a key of `FILES`, and yields that key's path. Otherwise `Err("Unknown Operation")`. |
| FileCommands.FilesKeys | src/commands/files.rs:13-24 | `FILES` has exactly the keys db, admins, banlist, description, settings, whitelist and cli_settings, and each key parses to its own path. |
| FileCommands.EntryExtension | src/commands/files.rs:15-23 | the db path has extension "sqlite" and every other path has "ron". |
| FileCommands.FilesExtensions | src/commands/files.rs:15-23 | every `FILES` path except db's has extension "ron", which selects the text branch of `view`. |
| AdminCommands.ParseOperation | src/commands/admin.rs:17-28 | the lower-cased input must be exactly "upload", "delete" or "download". Anything else is `Err("Unknown Operation")`. |
| AdminCommands.KeywordRoundTrip | src/commands/admin.rs:21-24 | each keyword, in any letter case, parses back to its operation. |
| AdminCommands.KeywordsDistinct | src/commands/admin.rs:22-24 | the three keywords are distinct. |
| AdminCommands.ParseOperationIgnoresCase | src/commands/admin.rs:21 | `s` and `lower(s)` parse alike. |
| AdminCommands.ShortFormsRejected | src/commands/admin.rs:21-26 | "up" and "rm" are rejected with "Unknown Operation". |
| AdminFiles.Path | src/commands/admin/files.rs:23-45 | the path of each file: its directory, stem and extension joined. For example, `Admins` is "veloren/target/debug/userdata/server/server_config/admins.ron". `PathDirectory`, `PathExtension` and `PathInjective` state the rest. |
| AdminFiles.PathExtension | src/commands/admin/files.rs:23-45 | `Db` is the only file whose path has extension "sqlite". All others have "ron". |
| AdminFiles.PathDirectory | src/commands/admin/files.rs:23-45 | every path starts with "veloren/target/debug/userdata/". The five server config files are under `server/server_config/`, `CliSettings` is under `server-cli/`, and `Db` is under `server/saves/`. |
| AdminFiles.PathInjective | src/commands/admin/files.rs:23-45 | the seven paths are pairwise distinct. |
| BotState.Default | src/state.rs:18-25 | the default head is "master" and the admin set is empty. |
| BotState.Admins | src/state.rs:44-46 | contains exactly the stored ids wrapped as `UserId`, with the same cardinality. |
| BotState.SetHead | src/state.rs:53-77 | the head becomes `head` exactly when the existence probe reports success. The answer is the probe's verdict, or the error of the probe or of the save that follows the change. The admins are untouched. |
| BotState.HeadAfterSetHead | src/state.rs:48-77 | `head()` after `set_head` is the new head when the answer is `Ok(true)`, and the old head when it is `Ok(false)`. |
| BotState.AddAdmin | src/state.rs:79-85 | the id is in the set afterwards, and no other membership changes. The save result is passed through. |
| BotState.RemoveAdmin | src/state.rs:87-93 | the id is absent afterwards, and no other membership changes. Removing an absent id changes nothing. |
| BotState.AdminUpdates | src/state.rs:79-93 | adding an id twice is the same as adding it once. Removing an id that was just added restores the set. |
| Checks.IsAdmin | src/checks/mod.rs:4-16 | passes exactly when the author is an admin or the owner. A denial is `Ok(false)` with the admin message, and is `Err` only when sending that message fails. |
| Checks.IsOwner | src/checks/mod.rs:18-29 | passes exactly when the author is the owner. A denial is `Ok(false)` with the owner message, and is `Err` only when sending that message fails. |
| Checks.OwnerIsAdmin | src/checks/mod.rs:5-28 | whoever passes `is_owner` passes `is_admin`. |
| Checks.DefaultStateAdmitsOnlyOwner | src/checks/mod.rs:9 | with the default state, only the owner passes `is_admin`. |

## Left out

- `src/server/task.rs` (the tokio task, `AbortHandle`, `done` flag) is not part of this model, because its purpose is concurrency. The task is a token, and cancellation is "only the sent prefix reached the queue".
- The mpsc channel is represented by a FIFO sequence. Its non-blocking `recv` is represented by draining the sequence.
- Spawning processes, `Server::clone_repository` and the `veloren/Cargo.toml` check in `Server::new` are left out because they are I/O. `New` models only the state `Server::new` returns.
- The concurrent merge of stdout and stderr in `print_progress` is left out because it is concurrency. Only its result, one ordered stream, is an input.
- `utils::aquire_output` is not modelled; its result is the input `Query`.
- `Rev`'s `Display` is not part of this model. The checkout target is taken to be the branch name or the commit hash.
- The server's `args` and `cargo_args` are `LinkedHashSet<String>` in the source: ordered and free of duplicates. The model takes any `seq<string>`, a wider input set, and does not rely on the absence of duplicates.
- Process.Execute: its log is the eventual log of the detached drain task. How much of it exists when `execute` returns is timing, which is not modelled.
- `to_lowercase`, `trim` and `Path::extension` are modelled for ASCII only. Unicode case mapping and white space are left out.
- The log messages (`log::info!`, `log::error!`, `log::debug!`) are left out, except the per-line entries of `print_progress`.
- The deriving of `Ord` for `ServerStatus` is left out, because nothing in the core uses it.
- Supervisor.KnownVersion and BotState.Head have no contract of their own, because they are plain accessors. Their properties are stated by `VersionIsSticky` and `HeadAfterSetHead`.
- The handlers are left out because they are chat and file I/O over the modelled operations. This covers the `files` command handler and the `upload`, `remove` and `view` handlers of `src/commands/admin/files.rs`, apart from the extension test that picks `view`'s branch.
- `State::new`, `State::save`, settings loading and persistence are left out because they are file I/O. A save's outcome is an input wherever the in-memory change comes before it.
- `src/checks/admin.rs` is left out because it is stale code that calls an accessor that no longer exists.
- The Discord layer, the info/help/owner commands and `src/commands/utils.rs` are left out because they are chat, HTTP and cache I/O.
