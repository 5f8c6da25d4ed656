/** The launcher that brings After Effects up: a start timer first creates the websocket
    server, waits for it to run, spawns the host process once, and waits for the host to
    connect; then a loop timer runs the callbacks queued for the main thread. Timers are
    flags; the server's liveness, the process's liveness and whether a stub is obtained
    are observations passed in with each tick. */
module LaunchLogic {
  import opened Wrappers
  import opened Strings

  // ---------------------------------------------------------------------------------
  // find_available_port

  /** `list(range(8097, 8110))`: thirteen alternative ports. */
  function Alternatives(): (r: seq<int>)
    ensures |r| == 13 && forall k :: 0 <= k < 13 ==> r[k] == 8097 + k
  {
    seq(13, k => 8097 + k)
  }

  datatype PortOutcome =
    | Found(port: int)
    /** `return None`: guarded by `alternative_index > len(alternative_ports)`. */
    | NoPort
    /** `alternative_ports[13]` raises `IndexError`. */
    | IndexError

  /** The search as written, from the port being tried and the index of the next
      alternative. */
  function PortSearch(port: int, idx: nat, occupied: int -> bool): PortOutcome
    decreases 14 - idx
  {
    if !occupied(port) then Found(port)
    else if idx > |Alternatives()| then NoPort
    else if idx == |Alternatives()| then IndexError
    else PortSearch(Alternatives()[idx], idx + 1, occupied)
  }

  /** From alternative `idx` on, the search finds the first free alternative, or raises
      when all the remaining ones are occupied. */
  lemma {:induction false} PortSearchFrom(port: int, idx: nat, occupied: int -> bool)
    requires idx <= 13 && occupied(port)
    ensures PortSearch(port, idx, occupied) != NoPort
    ensures PortSearch(port, idx, occupied).Found? ==>
              exists k :: idx <= k < 13 && PortSearch(port, idx, occupied).port == Alternatives()[k]
                && !occupied(Alternatives()[k]) && forall j :: idx <= j < k ==> occupied(Alternatives()[j])
    ensures PortSearch(port, idx, occupied) == IndexError <==> forall j :: idx <= j < 13 ==> occupied(Alternatives()[j])
    decreases 13 - idx
  {
    if idx < 13 {
      var next := Alternatives()[idx];
      if occupied(next) {
        PortSearchFrom(next, idx + 1, occupied);
      }
    }
  }

  /** `find_available_port` returns the first port not occupied in the order: the server's
      port, then 8097 up to 8109. With every one of them occupied the guard, which is `>`
      where `>=` would stop in time, lets the index reach 13 and the list lookup raises:
      `None` is never returned. */
  lemma FirstFreePort(initial: int, occupied: int -> bool)
    ensures PortSearch(initial, 0, occupied) != NoPort
    ensures !occupied(initial) ==> PortSearch(initial, 0, occupied) == Found(initial)
    ensures occupied(initial) && PortSearch(initial, 0, occupied).Found? ==>
              exists k :: 0 <= k < 13 && PortSearch(initial, 0, occupied).port == Alternatives()[k]
                && !occupied(Alternatives()[k]) && forall j :: 0 <= j < k ==> occupied(Alternatives()[j])
    ensures PortSearch(initial, 0, occupied) == IndexError <==>
              occupied(initial) && forall j :: 0 <= j < 13 ==> occupied(Alternatives()[j])
  {
    if occupied(initial) {
      PortSearchFrom(initial, 0, occupied);
    }
  }

  /** What the launcher knows of the websocket server (`WebServerTool` is not part of this
      model): its port, its thread's port, whether routes were added and the server started,
      and whether it was stopped. */
  datatype ServerState = ServerState(port: int, threadPort: int, serving: bool, stopped: bool)

  class WebServer {
    var port: int
    var threadPort: int
    var serving: bool
    var stopped: bool

    /** The thread is created on the server's port. */
    constructor (port: int)
      ensures State() == ServerState(port, port, false, false)
    {
      this.port := port;
      threadPort := port;
      serving := false;
      stopped := false;
    }

    function State(): ServerState
      reads this
    {
      ServerState(port, threadPort, serving, stopped)
    }
  }

  /** `find_available_port`: moves `server.port` and the thread's port together through the
      alternatives while the port is occupied. */
  method FindAvailablePort(server: WebServer, occupied: int -> bool) returns (r: PortOutcome)
    requires server.port == server.threadPort
    modifies server
    ensures r == PortSearch(old(server.port), 0, occupied)
    ensures server.port == server.threadPort
    ensures r.Found? ==> server.port == r.port
    ensures r == IndexError ==> server.port == 8109
    ensures server.serving == old(server.serving) && server.stopped == old(server.stopped)
  {
    var idx := 0;
    while occupied(server.port)
      invariant 0 <= idx <= 14
      invariant PortSearch(server.port, idx, occupied) == PortSearch(old(server.port), 0, occupied)
      invariant server.port == server.threadPort
      invariant 0 < idx <= 13 ==> server.port == Alternatives()[idx - 1]
      invariant server.serving == old(server.serving) && server.stopped == old(server.stopped)
      decreases 14 - idx
    {
      if idx > |Alternatives()| {
        return NoPort;
      }
      if idx == |Alternatives()| {
        return IndexError;
      }
      var alternative := Alternatives()[idx];
      server.port := alternative;
      server.threadPort := alternative;
      idx := idx + 1;
    }
    r := Found(server.port);
  }

  // ---------------------------------------------------------------------------------
  // The launcher's state and the start-up step

  /** A spawned host process: its arguments and the environment it was given. */
  datatype HostProcess = HostProcess(args: seq<string>, env: map<string, string>)

  datatype LauncherState = LauncherState(
    started: bool,
    startTimer: bool,
    loopTimer: bool,
    server: Option<ServerState>,
    process: Option<HostProcess>,
    processKilled: bool,
    contextSent: bool,
    exited: bool)

  /** What a tick observes: `is_running` of the server, `poll() is None` of the process,
      and whether `get_stub` returned a stub. */
  datatype Observed = Observed(serverRunning: bool, processRunning: bool, stubFound: bool)

  /** What the start tick needs from outside: the server's initial port, `port_occupied`,
      `os.environ`, whether `subprocess.Popen` raises, and the observations. */
  datatype StartHost = StartHost(initialPort: int, occupied: int -> bool, environ: map<string, string>,
                                 spawnFails: bool, obs: Observed)

  datatype TickResult = Completed | RaisedIndexError

  /** `websocket_server_is_running`: only a server that was started and not stopped can be
      observed running. */
  function ServerRunning(s: LauncherState, obs: Observed): bool {
    s.server.Some? && s.server.value.serving && !s.server.value.stopped && obs.serverRunning
  }

  function ProcessRunning(s: LauncherState, obs: Observed): bool {
    s.process.Some? && obs.processRunning
  }

  /** `is_host_connected`: `False` without a running process, `True` when a stub is
      obtained, `None` otherwise. */
  function HostConnected(s: LauncherState, obs: Observed): (r: Option<bool>)
    ensures !ProcessRunning(s, obs) <==> r == Some(false)
    ensures r == Some(true) <==> ProcessRunning(s, obs) && obs.stubFound
    ensures r.None? <==> ProcessRunning(s, obs) && !obs.stubFound
  {
    if !ProcessRunning(s, obs) then Some(false)
    else if obs.stubFound then Some(true)
    else None
  }

  /** `exit`: both timers stop, the server is stopped, the process killed, the app left. */
  function ExitState(s: LauncherState): (r: LauncherState)
    ensures !r.startTimer && !r.loopTimer && r.exited && r.process == s.process && r.started == s.started
    ensures s.process.Some? ==> r.processKilled
    ensures s.server.Some? ==> r.server == Some(s.server.value.(stopped := true))
    ensures s.server.None? ==> r.server.None?
  {
    s.(startTimer := false, loopTimer := false,
       server := if s.server.Some? then Some(s.server.value.(stopped := true)) else None,
       processKilled := s.processKilled || s.process.Some?, exited := true)
  }

  /** `start`: the first call starts the start timer; later calls change nothing. */
  function StartState(s: LauncherState): (r: LauncherState)
    ensures s.started ==> r == s
    ensures r.started && (!s.started ==> r.startTimer)
  {
    if s.started then s else s.(started := true, startTimer := true)
  }

  /** `"ws://localhost:{port}/ws/"`. */
  function WebsocketUrl(port: int): string {
    "ws://localhost:" + IntToString(port) + "/ws/"
  }

  /** `_init_server` on a launcher without a server. */
  function InitServerState(s: LauncherState, h: StartHost): (r: (LauncherState, TickResult))
    ensures r.0.server.Some? && r.0.process == s.process && r.0.startTimer == s.startTimer
    ensures r.0.loopTimer == s.loopTimer && r.0.exited == s.exited
  {
    FirstFreePort(h.initialPort, h.occupied);
    match PortSearch(h.initialPort, 0, h.occupied)
    case Found(p) => (s.(server := Some(ServerState(p, p, true, false))), Completed)
    case NoPort =>
      (ExitState(s.(server := Some(ServerState(h.initialPort, h.initialPort, false, false)), contextSent := true)), Completed)
    case IndexError => (s.(server := Some(ServerState(8109, 8109, false, false))), RaisedIndexError)
  }

  /** `_start_process` on a launcher with a server and no process. */
  function StartProcessState(s: LauncherState, h: StartHost, args: seq<string>): (r: LauncherState)
    requires s.server.Some?
    ensures r.server.Some? && r.server.value.port == s.server.value.port
    ensures s.process.None? && r.process.Some? ==>
              && r.server == s.server && r.process.value.args == args && "WEBSOCKET_URL" in r.process.value.env
              && r.process.value.env["WEBSOCKET_URL"] == WebsocketUrl(s.server.value.port)
    ensures r.process.None? ==> r.exited
    ensures r.loopTimer ==> s.loopTimer
  {
    if h.spawnFails then ExitState(s)
    else s.(process := Some(HostProcess(args, h.environ["WEBSOCKET_URL" := WebsocketUrl(s.server.value.port)])))
  }

  /** `_on_start_process_timer`: the first step creates the server; while it is not running
      nothing happens; then the process is spawned; once the host is connected the start
      timer gives way to the loop timer; if the process or the server is gone, exit. */
  function StartTick(s: LauncherState, h: StartHost, args: seq<string>): (r: (LauncherState, TickResult))
    // the first tick only creates the server
    ensures s.server.None? ==>
              && r.0.server.Some? && r.0.process == s.process && r.0.startTimer == s.startTimer
              && r.0.loopTimer == s.loopTimer && r.0.exited == s.exited
    // a process is spawned only by a tick that sees a running server, at most once, and
    // is told the server's port
    ensures s.process.Some? ==> r.0.process == s.process
    ensures s.process.None? && r.0.process.Some? ==>
              && ServerRunning(s, h.obs) && r.0.server == s.server
              && "WEBSOCKET_URL" in r.0.process.value.env && r.0.process.value.env["WEBSOCKET_URL"] == WebsocketUrl(s.server.value.port)
              && r.0.process.value.args == args
    // the loop timer starts only when the host is connected
    ensures !s.loopTimer && r.0.loopTimer ==>
              s.process.Some? && h.obs.processRunning && h.obs.stubFound && !r.0.startTimer
    // while waiting for the host, a dead process makes the launcher exit
    ensures s.server.Some? && s.process.Some? && ServerRunning(s, h.obs) && !h.obs.processRunning ==> r.0.exited
    // a server that is not running makes the tick return before the liveness check, so the
    // launcher neither exits nor changes: the `or not websocket_server_is_running` is dead
    ensures s.server.Some? && !ServerRunning(s, h.obs) ==> r == (s, Completed)
    ensures r.1 == RaisedIndexError ==> s.server.None?
  {
    if s.server.None? then InitServerState(s, h)
    else if !ServerRunning(s, h.obs) then (s, Completed)
    else if s.process.None? then (StartProcessState(s, h, args), Completed)
    else if HostConnected(s, h.obs) == Some(true) then (s.(startTimer := false, loopTimer := true), Completed)
    else if !ProcessRunning(s, h.obs) || !ServerRunning(s, h.obs) then (ExitState(s), Completed)
    else (s, Completed)
  }

  /** The states a sequence of start ticks goes through, and the number of spawns. */
  function Spawns(s: LauncherState, hs: seq<StartHost>, args: seq<string>): nat
    decreases |hs|
  {
    if hs == [] then 0
    else
      var next := StartTick(s, hs[0], args).0;
      (if s.process.None? && next.process.Some? then 1 else 0) + Spawns(next, hs[1..], args)
  }

  /** Whatever the observations, the host process is spawned at most once, and never again
      once a process exists. */
  lemma {:induction false} SpawnAtMostOnce(s: LauncherState, hs: seq<StartHost>, args: seq<string>)
    ensures Spawns(s, hs, args) <= if s.process.None? then 1 else 0
    decreases |hs|
  {
    if hs != [] {
      var next := StartTick(s, hs[0], args).0;
      SpawnAtMostOnce(next, hs[1..], args);
    }
  }

  /** After the queued callbacks ran: exit when the process is not running, or else when
      the server is not running. */
  function AfterDrain(s: LauncherState, obs: Observed): (r: LauncherState)
    ensures !ProcessRunning(s, obs) || !ServerRunning(s, obs) ==> r == ExitState(s)
    ensures ProcessRunning(s, obs) && ServerRunning(s, obs) ==> r == s
  {
    if !ProcessRunning(s, obs) then ExitState(s)
    else if !ServerRunning(s, obs) then ExitState(s)
    else s
  }

  // ---------------------------------------------------------------------------------
  // The main-thread callback queue

  /** What the routes and `main` queue for the main thread. */
  datatype Callback =
    | ShowTool(name: string)
    | SetSettings(frames: bool, resolution: bool)
    | ShowScriptEditor
    | OtherCallback(name: string)

  /** `ProcessLauncher._main_thread_callbacks`: a deque shared by the whole class. */
  class CallbackQueue {
    var items: seq<Callback>

    constructor ()
      ensures items == []
    {
      items := [];
    }

    /** `execute_in_main_thread`. */
    method Push(cb: Callback)
      modifies this
      ensures items == old(items) + [cb]
    {
      items := items + [cb];
    }
  }

  /** What running the callbacks `ran` enqueues, in order; `effect` says what one callback
      enqueues. */
  function Enqueued(ran: seq<Callback>, effect: Callback -> seq<Callback>): seq<Callback> {
    if ran == [] then [] else Enqueued(ran[..|ran| - 1], effect) + effect(ran[|ran| - 1])
  }

  /** The drain loop of `_on_loop_timer`: exactly the callbacks queued when it began run,
      oldest first; what they enqueue stays queued behind the rest. */
  method Drain(queue: CallbackQueue, effect: Callback -> seq<Callback>) returns (ran: seq<Callback>)
    modifies queue
    ensures ran == old(queue.items)
    ensures queue.items == Enqueued(old(queue.items), effect)
  {
    ghost var q0 := queue.items;
    var n := |queue.items|;
    ran := [];
    var k := 0;
    while k < n
      invariant 0 <= k <= n == |q0|
      invariant ran == q0[..k]
      invariant queue.items == q0[k..] + Enqueued(q0[..k], effect)
    {
      DrainStep(q0, k, effect);
      if queue.items != [] {
        var cb := queue.items[0];
        queue.items := queue.items[1..];
        ran := ran + [cb];
        queue.items := queue.items + effect(cb);
      }
      k := k + 1;
    }
    assert q0[..k] == q0;
  }

  /** One turn of the drain loop: the oldest callback runs and what it enqueues goes last. */
  lemma DrainStep(q0: seq<Callback>, k: nat, effect: Callback -> seq<Callback>)
    requires k < |q0|
    ensures var items := q0[k..] + Enqueued(q0[..k], effect);
            && items != [] && items[0] == q0[k]
            && items[1..] + effect(q0[k]) == q0[k + 1..] + Enqueued(q0[..k + 1], effect)
  {
    var e := Enqueued(q0[..k], effect);
    assert q0[..k + 1][..k] == q0[..k];
    assert Enqueued(q0[..k + 1], effect) == e + effect(q0[k]);
    var items := q0[k..] + e;
    assert items[1..] == q0[k + 1..] + e;
    assert (q0[k + 1..] + e) + effect(q0[k]) == q0[k + 1..] + (e + effect(q0[k]));
  }

  /** Callbacks enqueued while a tick drains run on a later tick: after two drains with
      nothing enqueued by the second batch, the queue is empty. */
  lemma TwoDrains(q: seq<Callback>, effect: Callback -> seq<Callback>)
    requires forall cb :: cb in Enqueued(q, effect) ==> effect(cb) == []
    ensures Enqueued(Enqueued(q, effect), effect) == []
  {
    EnqueuedNothing(Enqueued(q, effect), effect);
  }

  lemma {:induction false} EnqueuedNothing(q: seq<Callback>, effect: Callback -> seq<Callback>)
    requires forall cb :: cb in q ==> effect(cb) == []
    ensures Enqueued(q, effect) == []
    decreases |q|
  {
    if q != [] {
      EnqueuedNothing(q[..|q| - 1], effect);
    }
  }

  // ---------------------------------------------------------------------------------
  // ProcessLauncher

  class ProcessLauncher {
    const subprocessArgs: seq<string>
    /** The class-level queue. */
    const queue: CallbackQueue
    var started: bool
    var startTimerActive: bool
    var loopTimerActive: bool
    var server: WebServer?
    var process: Option<HostProcess>
    var processKilled: bool
    var contextSent: bool
    var exited: bool

    constructor (subprocessArgs: seq<string>, queue: CallbackQueue)
      ensures this.subprocessArgs == subprocessArgs && this.queue == queue
      ensures Snapshot() == LauncherState(false, false, false, None, None, false, false, false)
    {
      this.subprocessArgs := subprocessArgs;
      this.queue := queue;
      started := false;
      startTimerActive := false;
      loopTimerActive := false;
      server := null;
      process := None;
      processKilled := false;
      contextSent := false;
      exited := false;
    }

    function Snapshot(): LauncherState
      reads this, server
    {
      LauncherState(started, startTimerActive, loopTimerActive,
                    if server == null then None else Some(server.State()),
                    process, processKilled, contextSent, exited)
    }

    method Start()
      modifies this
      ensures Snapshot() == StartState(old(Snapshot()))
    {
      if started {
        return;
      }
      started := true;
      startTimerActive := true;
    }

    method Exit()
      modifies this, server
      ensures Snapshot() == ExitState(old(Snapshot()))
    {
      startTimerActive := false;
      loopTimerActive := false;
      if server != null {
        server.stopped := true;
      }
      if process.Some? {
        processKilled := true;
      }
      exited := true;
    }

    method InitServer(h: StartHost) returns (result: TickResult)
      requires server == null
      modifies this
      ensures (Snapshot(), result) == InitServerState(old(Snapshot()), h)
    {
      var ws := new WebServer(h.initialPort);
      server := ws;
      var port := FindAvailablePort(ws, h.occupied);
      match port
      case IndexError =>
        return RaisedIndexError;
      case NoPort =>
        // The context change and exit of `port is None` cannot happen: see `FirstFreePort`.
        assert false;
      case Found(_) =>
        ws.serving := true;
        result := Completed;
    }

    method StartProcess(h: StartHost)
      requires server != null && process.None?
      modifies this, server
      ensures Snapshot() == StartProcessState(old(Snapshot()), h, subprocessArgs)
    {
      var environ := h.environ["WEBSOCKET_URL" := WebsocketUrl(server.port)];
      if h.spawnFails {
        Exit();
        return;
      }
      process := Some(HostProcess(subprocessArgs, environ));
    }

    /** `_on_start_process_timer`. */
    method OnStartProcessTimer(h: StartHost) returns (result: TickResult)
      modifies this, server
      ensures (Snapshot(), result) == StartTick(old(Snapshot()), h, subprocessArgs)
    {
      if server == null {
        result := InitServer(h);
        return;
      }
      result := Completed;
      var serverRunning := server.serving && !server.stopped && h.obs.serverRunning;
      if !serverRunning {
        return;
      }
      if process.None? {
        StartProcess(h);
        return;
      }
      var processRunning := process.Some? && h.obs.processRunning;
      var connected := if !processRunning then Some(false) else if h.obs.stubFound then Some(true) else None;
      if connected == Some(true) {
        startTimerActive := false;
        loopTimerActive := true;
      } else if !processRunning || !serverRunning {
        Exit();
      }
    }

    /** `_on_loop_timer`, where running a callback enqueues what `effect` says. */
    method OnLoopTimer(obs: Observed, effect: Callback -> seq<Callback>) returns (ran: seq<Callback>)
      requires queue != server as object?
      modifies this, server, queue
      ensures ran == old(queue.items) && queue.items == Enqueued(old(queue.items), effect)
      ensures Snapshot() == AfterDrain(old(Snapshot()), obs)
    {
      ran := Drain(queue, effect);
      if !(process.Some? && obs.processRunning) {
        Exit();
      } else if !(server != null && server.serving && !server.stopped && obs.serverRunning) {
        Exit();
      }
    }
  }

  // ---------------------------------------------------------------------------------
  // AfterEffectsRoute

  /** `os.environ`, shared by everything in the process. */
  class Environment {
    var vars: map<string, string>

    constructor (vars: map<string, string>)
      ensures this.vars == vars
    {
      this.vars := vars;
    }
  }

  /** Python truthiness of an optional string argument. */
  predicate Truthy(arg: Option<string>) {
    arg.Some? && arg.value != ""
  }

  /** The environment after `set_context`: each of the three keys is overwritten exactly
      when its argument is truthy. */
  function ContextVars(vars: map<string, string>, project: Option<string>, folder: Option<string>,
                       task: Option<string>): (r: map<string, string>)
    ensures forall k :: k in vars ==> k in r
    ensures forall k :: k in r && k != "AYON_PROJECT_NAME" && k != "AYON_FOLDER_PATH" && k != "AYON_TASK_NAME"
              ==> k in vars && r[k] == vars[k]
    ensures Truthy(project) ==> "AYON_PROJECT_NAME" in r && r["AYON_PROJECT_NAME"] == project.value
    ensures Truthy(folder) ==> "AYON_FOLDER_PATH" in r && r["AYON_FOLDER_PATH"] == folder.value
    ensures Truthy(task) ==> "AYON_TASK_NAME" in r && r["AYON_TASK_NAME"] == task.value
    ensures !Truthy(project) ==> ("AYON_PROJECT_NAME" in r <==> "AYON_PROJECT_NAME" in vars) && ("AYON_PROJECT_NAME" in vars ==> r["AYON_PROJECT_NAME"] == vars["AYON_PROJECT_NAME"])
    ensures !Truthy(folder) ==> ("AYON_FOLDER_PATH" in r <==> "AYON_FOLDER_PATH" in vars) && ("AYON_FOLDER_PATH" in vars ==> r["AYON_FOLDER_PATH"] == vars["AYON_FOLDER_PATH"])
    ensures !Truthy(task) ==> ("AYON_TASK_NAME" in r <==> "AYON_TASK_NAME" in vars) && ("AYON_TASK_NAME" in vars ==> r["AYON_TASK_NAME"] == vars["AYON_TASK_NAME"])
  {
    var v1 := if Truthy(project) then vars["AYON_PROJECT_NAME" := project.value] else vars;
    var v2 := if Truthy(folder) then v1["AYON_FOLDER_PATH" := folder.value] else v1;
    if Truthy(task) then v2["AYON_TASK_NAME" := task.value] else v2
  }

  /** `AfterEffectsRoute.set_context`. */
  method SetContext(env: Environment, project: Option<string>, folder: Option<string>, task: Option<string>)
    modifies env
    ensures env.vars == ContextVars(old(env.vars), project, folder, task)
  {
    if Truthy(project) {
      env.vars := env.vars["AYON_PROJECT_NAME" := project.value];
    }
    if Truthy(folder) {
      env.vars := env.vars["AYON_FOLDER_PATH" := folder.value];
    }
    if Truthy(task) {
      env.vars := env.vars["AYON_TASK_NAME" := task.value];
    }
  }

  /** `_tool_route`: queues showing the tool for the main thread. */
  method ToolRoute(queue: CallbackQueue, toolName: string) returns (r: string)
    modifies queue
    ensures queue.items == old(queue.items) + [ShowTool(toolName)] && r == "nothing"
  {
    queue.Push(ShowTool(toolName));
    r := "nothing";
  }

  /** `_settings_route`: queues `set_settings(frames, resolution)` for the main thread. */
  method SettingsRoute(queue: CallbackQueue, frames: bool, resolution: bool) returns (r: string)
    modifies queue
    ensures queue.items == old(queue.items) + [SetSettings(frames, resolution)] && r == "nothing"
  {
    queue.Push(SetSettings(frames, resolution));
    r := "nothing";
  }
}
