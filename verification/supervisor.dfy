/** The game-server supervisor `Server` as a state machine.

    The background task is a token holding the event trace its pipeline run
    will send (`Pipeline.Setup`) and how many of those events it has sent so
    far. The channel's receiving end is the FIFO queue `reporter` of events
    sent but not yet drained. The task's progress is the environment step
    `Deliver`; cancelling the task (`Stop`) means that only the prefix sent so
    far ever reached the queue. */
module Supervisor {
  import opened Results
  import opened Pipeline
  import Process

  /** The running pipeline task: its whole trace and how much of it was sent. */
  datatype Task = Task(trace: seq<ServerStatus>, sent: nat)

  /** `Server`: the channel receiver, the task, and the sticky status and
      version. */
  datatype Server = Server(
    reporter: Option<seq<ServerStatus>>,
    task: Option<Task>,
    status: ServerStatus,
    version: Option<string>)

  /** The state part of `Server::new`: no task, no reporter, `Offline`, no
      version. */
  function New(): (s: Server)
    ensures s.task.None? && s.reporter.None?
    ensures s.status == Offline && s.version.None?
  {
    Server(None, None, Offline, None)
  }

  /** `start` (which forwards to `run`): with a task present nothing changes
      and the answer is false, even when that task's pipeline has long
      finished; otherwise a fresh empty queue replaces the old one (dropping
      whatever was left in it) and a task for the pipeline run is installed. */
  function Start(s: Server, rev: Rev, args: seq<string>, cargoArgs: seq<string>, envs: map<string, string>,
                 world: World, query: Query): (r: (Server, bool))
    ensures r.1 <==> s.task.None?
    ensures !r.1 ==> r.0 == s
    ensures r.1 ==> (r.0.reporter == Some([])
      && r.0.task == Some(Task(Setup(rev, args, cargoArgs, envs, world, query).events, 0)))
    ensures r.0.task.Some? && r.0.status == s.status && r.0.version == s.version
  {
    if s.task.None? then
      var trace := Setup(rev, args, cargoArgs, envs, world, query).events;
      (s.(reporter := Some([]), task := Some(Task(trace, 0))), true)
    else
      (s, false)
  }

  /** `stop`: with a task, cancel it, force `Offline` and answer true; the
      queue and the version are kept. Without a task, answer false and
      change nothing. */
  function Stop(s: Server): (r: (Server, bool))
    ensures r.1 <==> s.task.Some?
    ensures r.0.task.None?
    ensures r.0.reporter == s.reporter && r.0.version == s.version
    ensures r.0.status == if r.1 then Offline else s.status
  {
    if s.task.Some? then (s.(task := None, status := Offline), true)
    else (s, false)
  }

  /** `restart`: `stop` and then `run` with the same arguments; afterwards a
      task for the new run is always present and its queue is empty. */
  function Restart(s: Server, rev: Rev, args: seq<string>, cargoArgs: seq<string>, envs: map<string, string>,
                   world: World, query: Query): (r: Server)
    ensures r.task == Some(Task(Setup(rev, args, cargoArgs, envs, world, query).events, 0))
    ensures r.reporter == Some([])
    ensures r.status == (if s.task.Some? then Offline else s.status)
    ensures r.version == s.version
  {
    Start(Stop(s).0, rev, args, cargoArgs, envs, world, query).0
  }

  /** `clean`: always stop first, then run `cargo clean` to completion. If
      that fails, answer false with no task; otherwise start a run and
      answer true. */
  function Clean(s: Server, rev: Rev, args: seq<string>, cargoArgs: seq<string>, envs: map<string, string>,
                 world: World, query: Query): (r: (Server, bool))
    ensures r.1 <==> Process.Execute("cargo", world(CleanCommand())).result.Ok?
    ensures !r.1 ==> r.0.task.None? && r.0.reporter == s.reporter
    ensures r.1 ==> (r.0.reporter == Some([])
      && r.0.task == Some(Task(Setup(rev, args, cargoArgs, envs, world, query).events, 0)))
    ensures r.0.status == (if s.task.Some? then Offline else s.status)
    ensures r.0.version == s.version
  {
    var stopped := Stop(s).0;
    if Process.Execute("cargo", world(CleanCommand())).result.Ok? then
      (Start(stopped, rev, args, cargoArgs, envs, world, query).0, true)
    else
      (stopped, false)
  }

  /** The drain loop of `status`, front to back: a `Version` sets the
      version, any other event overwrites the status. */
  function Drain(status: ServerStatus, version: Option<string>, q: seq<ServerStatus>): (r: (ServerStatus, Option<string>))
    ensures r.0 == status || r.0 in q
    ensures !status.Version? ==> !r.0.Version?
    ensures r.1 == version || (r.1.Some? && Version(r.1.value) in q)
    decreases |q|
  {
    if q == [] then (status, version)
    else match q[0]
      case Version(v) => Drain(status, Some(v), q[1..])
      case other => Drain(other, version, q[1..])
  }

  /** Reference reading of a drained queue, from its end: the last event
      that is not a `Version`, or `status` if there is none. */
  function LastStatus(status: ServerStatus, q: seq<ServerStatus>): ServerStatus
  {
    if q == [] then status
    else if q[|q| - 1].Version? then LastStatus(status, q[..|q| - 1])
    else q[|q| - 1]
  }

  /** The hash of the last `Version` event, or `version` if there is none. */
  function LastVersion(version: Option<string>, q: seq<ServerStatus>): Option<string>
  {
    if q == [] then version
    else if q[|q| - 1].Version? then Some(q[|q| - 1].hash)
    else LastVersion(version, q[..|q| - 1])
  }

  lemma {:induction false} LastAppend(status: ServerStatus, version: Option<string>, a: seq<ServerStatus>, b: seq<ServerStatus>)
    ensures LastStatus(status, a + b) == LastStatus(LastStatus(status, a), b)
    ensures LastVersion(version, a + b) == LastVersion(LastVersion(version, a), b)
    decreases |b|
  {
    if b == [] {
      assert a + b == a;
    } else {
      var b' := b[..|b| - 1];
      assert (a + b)[..|a + b| - 1] == a + b';
      assert (a + b)[|a + b| - 1] == b[|b| - 1];
      LastAppend(status, version, a, b');
    }
  }

  /** Draining front to back ends where the reference reading says. */
  lemma {:induction false} DrainIsLast(status: ServerStatus, version: Option<string>, q: seq<ServerStatus>)
    ensures Drain(status, version, q) == (LastStatus(status, q), LastVersion(version, q))
    decreases |q|
  {
    if q != [] {
      assert q == [q[0]] + q[1..];
      LastAppend(status, version, [q[0]], q[1..]);
      assert [q[0]][..0] == [];
      match q[0]
      case Version(v) =>
        DrainIsLast(status, Some(v), q[1..]);
      case other =>
        DrainIsLast(other, version, q[1..]);
    }
  }

  /** `status`: drain the whole queue in FIFO order, then return the sticky
      status. Without a reporter nothing changes. */
  function Status(s: Server): (r: (Server, ServerStatus))
    ensures r.1 == r.0.status
    ensures r.0.task == s.task
    ensures s.reporter.None? ==> r.0 == s
    ensures s.reporter.Some? ==>
      && r.0.reporter == Some([])
      && r.0.status == LastStatus(s.status, s.reporter.value)
      && r.0.version == LastVersion(s.version, s.reporter.value)
  {
    match s.reporter
    case None => (s, s.status)
    case Some(q) =>
      DrainIsLast(s.status, s.version, q);
      var (status, version) := Drain(s.status, s.version, q);
      (s.(reporter := Some([]), status := status, version := version), status)
  }

  /** `version`: the last discovered version. */
  function KnownVersion(s: Server): Option<string> {
    s.version
  }

  /** A second `status` with no new events returns the same value and
      leaves the state as the first left it. */
  lemma StatusIdempotent(s: Server)
    ensures Status(Status(s).0) == Status(s)
  {
  }

  /** The running task sends its next `n` events (fewer if its trace ends
      first) into the queue. Nothing observable changes until they are
      drained. */
  function Deliver(s: Server, n: nat): (r: Server)
    ensures r.status == s.status && r.version == s.version
    ensures r.task.Some? == s.task.Some? && r.reporter.Some? == s.reporter.Some?
    ensures s.task.Some? && s.reporter.Some? && s.task.value.sent <= |s.task.value.trace| ==>
      var t := s.task.value;
      var t' := r.task.value;
      && t'.trace == t.trace
      && t.sent <= t'.sent <= |t.trace|
      && (t'.sent == t.sent + n || t'.sent == |t.trace|)
      && r.reporter.value == s.reporter.value + t.trace[t.sent..t'.sent]
  {
    match (s.task, s.reporter)
    case (Some(t), Some(q)) =>
      if t.sent > |t.trace| then s
      else
        var k := if n <= |t.trace| - t.sent then n else |t.trace| - t.sent;
        s.(task := Some(t.(sent := t.sent + k)), reporter := Some(q + t.trace[t.sent..t.sent + k]))
    case _ => s
  }

  /** The reachable states: a task always has a queue; the task's trace is a
      pipeline trace; the queue holds exactly the sent but undrained events;
      once some of this run's events were drained, the status is the one
      the drained prefix determines. */
  predicate Valid(s: Server) {
    && !s.status.Version?
    && (s.task.Some? ==>
      var t := s.task.value;
      && s.reporter.Some?
      && WellFormedTrace(t.trace)
      && t.sent <= |t.trace|
      && |s.reporter.value| <= t.sent
      && s.reporter.value == t.trace[t.sent - |s.reporter.value|..t.sent]
      && (t.sent > |s.reporter.value| ==>
            s.status == LastStatus(Offline, t.trace[..t.sent - |s.reporter.value|])))
  }

  /** Reading a queue never yields a `Version` unless the starting status
      was one. */
  lemma {:induction false} LastStatusNotVersion(status: ServerStatus, q: seq<ServerStatus>)
    requires !status.Version?
    ensures !LastStatus(status, q).Version?
    decreases |q|
  {
    if q != [] && q[|q| - 1].Version? {
      LastStatusNotVersion(status, q[..|q| - 1]);
    }
  }

  /** Once a status event leads the queue, the status before it does not
      matter. */
  lemma LastStatusAfterStatusEvent(a: ServerStatus, b: ServerStatus, q: seq<ServerStatus>)
    requires q != [] && !q[0].Version?
    ensures LastStatus(a, q) == LastStatus(b, q)
  {
  }

  /** The reading of a queue is its starting status when the queue holds
      only `Version` events, and otherwise one of its non-`Version` events. */
  lemma {:induction false} LastStatusCases(status: ServerStatus, q: seq<ServerStatus>)
    ensures (forall i | 0 <= i < |q| :: q[i].Version?) ==> LastStatus(status, q) == status
    ensures (exists i | 0 <= i < |q| :: !q[i].Version?) ==>
      LastStatus(status, q) in q && !LastStatus(status, q).Version?
    decreases |q|
  {
    if q != [] {
      var q' := q[..|q| - 1];
      LastStatusCases(status, q');
      if q[|q| - 1].Version? {
        if exists i | 0 <= i < |q| :: !q[i].Version? {
          var i :| 0 <= i < |q| && !q[i].Version?;
          assert q'[i] == q[i];
        }
      }
    }
  }

  lemma NewValid()
    ensures Valid(New())
  {
  }

  lemma StartValid(s: Server, rev: Rev, args: seq<string>, cargoArgs: seq<string>, envs: map<string, string>,
                   world: World, query: Query)
    requires Valid(s)
    ensures Valid(Start(s, rev, args, cargoArgs, envs, world, query).0)
  {
  }

  lemma StopValid(s: Server)
    requires Valid(s)
    ensures Valid(Stop(s).0)
  {
  }

  lemma RestartValid(s: Server, rev: Rev, args: seq<string>, cargoArgs: seq<string>, envs: map<string, string>,
                     world: World, query: Query)
    requires Valid(s)
    ensures Valid(Restart(s, rev, args, cargoArgs, envs, world, query))
  {
  }

  lemma CleanValid(s: Server, rev: Rev, args: seq<string>, cargoArgs: seq<string>, envs: map<string, string>,
                   world: World, query: Query)
    requires Valid(s)
    ensures Valid(Clean(s, rev, args, cargoArgs, envs, world, query).0)
  {
  }

  lemma DeliverValid(s: Server, n: nat)
    requires Valid(s)
    ensures Valid(Deliver(s, n))
  {
  }

  /** After `status`, the observed value is the reading of everything the
      running task has sent so far. */
  lemma StatusShowsSentPrefix(s: Server)
    requires Valid(s) && s.task.Some? && s.task.value.sent > 0
    ensures Status(s).1 == LastStatus(Offline, s.task.value.trace[..s.task.value.sent])
    ensures Valid(Status(s).0)
  {
    var t := s.task.value;
    var q := s.reporter.value;
    var d := t.sent - |q|;
    var v: Option<string> := None;
    LastStatusNotVersion(s.status, q);
    assert t.trace[..t.sent] == t.trace[..d] + q;
    if d > 0 {
      LastAppend(Offline, v, t.trace[..d], q);
    } else {
      assert q == t.trace[..t.sent];
      LastStatusAfterStatusEvent(s.status, Offline, q);
    }
  }

  lemma StatusValid(s: Server)
    requires Valid(s)
    ensures Valid(Status(s).0)
  {
    if s.reporter.Some? {
      LastStatusNotVersion(s.status, s.reporter.value);
    }
    if s.task.Some? && s.task.value.sent > 0 {
      StatusShowsSentPrefix(s);
    }
  }

  /** `status` of a reachable server never returns a `Version`, so the
      caller may always display it. */
  lemma StatusNeverVersion(s: Server)
    requires Valid(s)
    ensures !Status(s).1.Version?
    ensures Status(s).1 == Status(s).0.status
  {
    if s.reporter.Some? {
      LastStatusNotVersion(s.status, s.reporter.value);
    }
  }

  /** A failure, once observed for the running task, is final: the task
      has nothing left to send, so no later `status` can change it. */
  lemma FailureIsFinal(s: Server, n: nat)
    requires Valid(s) && s.task.Some? && s.task.value.sent > 0
    requires Status(s).1.IsFailure()
    ensures Status(Deliver(Status(s).0, n)).1 == Status(s).1
  {
    var t := s.task.value;
    var prefix := t.trace[..t.sent];
    StatusShowsSentPrefix(s);
    LastStatusCases(Offline, prefix);
    var failure := Status(s).1;
    if forall i | 0 <= i < |prefix| :: prefix[i].Version? {
      assert false;
    }
    assert failure in prefix;
    var j :| 0 <= j < |prefix| && prefix[j] == failure;
    WellFormedTraceShape(t.trace);
    assert t.trace[j] == failure;
    assert t.sent == |t.trace|;
  }

  /** `stop` does not clear the queue: the next `status` still applies the
      events sent before the cancellation, so it reports `Offline` exactly
      when those pending events are all `Version` events. */
  lemma StopKeepsPendingEvents(s: Server)
    requires Valid(s) && s.task.Some?
    ensures Status(Stop(s).0).1 == LastStatus(Offline, s.reporter.value)
    ensures Status(Stop(s).0).1 == Offline <==>
      forall i | 0 <= i < |s.reporter.value| :: s.reporter.value[i].Version?
  {
    var t := s.task.value;
    var q := s.reporter.value;
    WellFormedTraceShape(t.trace);
    LastStatusCases(Offline, q);
    assert Offline !in q by {
      forall i | 0 <= i < |q| ensures q[i] != Offline {
        assert q[i] == t.trace[t.sent - |q| + i];
      }
    }
  }

  /** The version is never cleared: `stop`, `start`, `restart` and `clean`
      keep it, and `status` replaces it only with the hash of a queued
      `Version` event. */
  lemma VersionIsSticky(s: Server, rev: Rev, args: seq<string>, cargoArgs: seq<string>, envs: map<string, string>,
                        world: World, query: Query)
    ensures KnownVersion(Stop(s).0) == KnownVersion(s)
    ensures KnownVersion(Start(s, rev, args, cargoArgs, envs, world, query).0) == KnownVersion(s)
    ensures KnownVersion(Restart(s, rev, args, cargoArgs, envs, world, query)) == KnownVersion(s)
    ensures KnownVersion(Clean(s, rev, args, cargoArgs, envs, world, query).0) == KnownVersion(s)
    ensures KnownVersion(Status(s).0) != KnownVersion(s) ==>
      s.reporter.Some? && KnownVersion(Status(s).0).Some? && Version(KnownVersion(Status(s).0).value) in s.reporter.value
  {
    if s.reporter.Some? {
      VersionFromQueue(s.version, s.reporter.value);
    }
  }

  lemma {:induction false} VersionFromQueue(version: Option<string>, q: seq<ServerStatus>)
    ensures LastVersion(version, q) == version || (LastVersion(version, q).Some? && Version(LastVersion(version, q).value) in q)
    decreases |q|
  {
    if q != [] && !q[|q| - 1].Version? {
      var q' := q[..|q| - 1];
      VersionFromQueue(version, q');
      if LastVersion(version, q') != version {
        var e := Version(LastVersion(version, q').value);
        var i :| 0 <= i < |q'| && q'[i] == e;
        assert q[i] == e;
      }
    }
  }
}
