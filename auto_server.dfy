/**
 * The proxy-side wake-and-wait bookkeeping of the AutoServer plugin.
 *
 * The plugin owns two structures: serverStartTasks, one scheduled poll task
 * per player id, and startingServers, a cache of server names for which a
 * start request was sent, whose entries expire two minutes after they are
 * written. Time is an abstract clock in seconds passed in by the caller;
 * the network (HTTP start request, ping, connection request) is replaced by
 * the outcomes the caller passes in.
 *
 * Each operation is specified twice: a step function on the value
 * PluginState, whose ensures state what the operation does, and a method of
 * the class AutoServer that updates the fields in place and is proved to
 * follow the step function.
 */
module AutoServer {
  import opened Wrappers
  import opened StartUrl
  import PluginLogger

  /** java.util.UUID: two 64-bit halves. */
  datatype Uuid = Uuid(mostSigBits: int, leastSigBits: int)

  /** The parts of a registered server's ServerInfo the plugin reads. */
  datatype ServerInfo = ServerInfo(name: string, host: string, port: Port)

  /** Java's int. */
  type Int32 = x: int | -0x8000_0000 <= x < 0x8000_0000

  /** Java's int addition, which wraps around modulo 2^32. */
  function AddInt32(a: Int32, b: Int32): (r: Int32)
    ensures -0x8000_0000 <= a + b < 0x8000_0000 ==> r == a + b
    ensures a + b >= 0x8000_0000 ==> r == a + b - 0x1_0000_0000
    ensures a + b < -0x8000_0000 ==> r == a + b + 0x1_0000_0000
  {
    (a + b + 0x8000_0000) % 0x1_0000_0000 - 0x8000_0000
  }

  /** The title stays pingInterval + 1 seconds, computed in int: the largest interval wraps to the smallest int. */
  lemma TitleStayWraps()
    ensures AddInt32(0x7fff_ffff, 1) == -0x8000_0000
    ensures forall i: Int32 :: i < 0x7fff_ffff ==> AddInt32(i, 1) == i + 1
  {
  }

  /** expireAfterWrite(Duration.ofMinutes(2)) of startingServers. */
  const STARTING_EXPIRY_SECONDS := 120
  /** Poll tasks first run one second after they are scheduled. */
  const TASK_DELAY_SECONDS := 1
  const DEFAULT_PING_TIMEOUT := 3
  const DEFAULT_PING_INTERVAL := 10
  /** HttpURLConnection.HTTP_OK, the only status taken as an accepted start request. */
  const HTTP_OK := 200

  /**
   * A poll task built by the scheduler: for whom, against which server, its
   * initial delay and its repeat period (pingInterval as it was when the task
   * was built).
   */
  datatype ScheduledTask = ScheduledTask(player: Uuid, server: ServerInfo, delaySeconds: int, repeatSeconds: int)

  /** The plugin's fields. startingServers maps a server name to the time its mark was written. */
  datatype PluginState = PluginState(
    pingTimeout: Int32,
    pingInterval: Int32,
    startingServers: map<string, int>,
    serverStartTasks: map<Uuid, ScheduledTask>)

  /** Every registered task belongs to the player it is registered under and was built with the one-second delay. */
  predicate WellFormed(s: PluginState)
  {
    forall id :: id in s.serverStartTasks ==>
      s.serverStartTasks[id].player == id && s.serverStartTasks[id].delaySeconds == TASK_DELAY_SECONDS
  }

  /** startingServers.getIfPresent(name) != null at time now: the mark exists and was written less than two minutes ago. */
  predicate IsStarting(marks: map<string, int>, name: string, now: int)
  {
    name in marks && now - marks[name] < STARTING_EXPIRY_SECONDS
  }

  /** An operation's new plugin state together with what it returned or did outside the plugin. */
  datatype Step<R> = Step(state: PluginState, result: R)

  // ---------------------------------------------------------------------
  // loadConfig

  /** What reading config.yml produced: creating the default file threw, loading failed, or the two integers read. */
  datatype ConfigOutcome = DefaultCreationFailed | LoadFailed | Loaded(pingTimeout: Int32, pingInterval: Int32)

  /** A configured number of seconds below 1 is replaced by the default. */
  function SettingOrDefault(value: Int32, default: Int32): (r: Int32)
    requires default >= 1
    ensures r >= 1
    ensures value >= 1 ==> r == value
    ensures value < 1 ==> r == default
  {
    if value < 1 then default else value
  }

  function LoadConfigStep(s: PluginState, config: ConfigOutcome): (r: Step<bool>)
    ensures r.result <==> config.Loaded?
    ensures !r.result ==> r.state == s
    ensures r.result ==> r.state.pingTimeout >= 1 && r.state.pingInterval >= 1
    ensures config.Loaded? ==>
      && r.state.pingTimeout == SettingOrDefault(config.pingTimeout, DEFAULT_PING_TIMEOUT)
      && r.state.pingInterval == SettingOrDefault(config.pingInterval, DEFAULT_PING_INTERVAL)
    ensures r.state.startingServers == s.startingServers && r.state.serverStartTasks == s.serverStartTasks
  {
    match config
    case DefaultCreationFailed => Step(s, false)
    case LoadFailed => Step(s, false)
    case Loaded(timeout, interval) =>
      Step(s.(pingTimeout := SettingOrDefault(timeout, DEFAULT_PING_TIMEOUT),
              pingInterval := SettingOrDefault(interval, DEFAULT_PING_INTERVAL)), true)
  }

  // ---------------------------------------------------------------------
  // cancelServerTask

  /** Removes the player's task from the registry; the result is the task that was cancelled, if there was one. */
  function CancelStep(s: PluginState, id: Uuid): (r: Step<Option<ScheduledTask>>)
    ensures id !in r.state.serverStartTasks
    ensures r.result == if id in s.serverStartTasks then Some(s.serverStartTasks[id]) else None
    ensures id !in s.serverStartTasks ==> r.state == s
    ensures forall other :: other != id ==> (other in r.state.serverStartTasks <==> other in s.serverStartTasks)
    ensures forall other :: other != id && other in s.serverStartTasks ==>
      r.state.serverStartTasks[other] == s.serverStartTasks[other]
    ensures r.state == s.(serverStartTasks := r.state.serverStartTasks)
    ensures WellFormed(s) ==> WellFormed(r.state)
  {
    var removed := if id in s.serverStartTasks then Some(s.serverStartTasks[id]) else None;
    Step(s.(serverStartTasks := s.serverStartTasks - {id}), removed)
  }

  // ---------------------------------------------------------------------
  // startServer

  /** How the start request went: the URL was rejected, opening the connection threw, connecting or reading the status threw, or a status came back. */
  datatype HttpOutcome = MalformedUrl | OpenFailure | ConnectFailure | Response(code: int)

  /** The start request that was attempted (its URL), if any, and the level of the message logged about it, if any. */
  datatype WakeReport = WakeReport(requested: Option<string>, logLevel: Option<int>)

  /** serverStartTasks.computeIfAbsent: a player who already has a task keeps it; otherwise a new one is built. */
  function RegisterTask(tasks: map<Uuid, ScheduledTask>, player: Uuid, server: ServerInfo, interval: int): (r: map<Uuid, ScheduledTask>)
    ensures player in r
    ensures player in tasks ==> r[player] == tasks[player]
    ensures player !in tasks ==> r[player] == ScheduledTask(player, server, TASK_DELAY_SECONDS, interval)
    ensures forall other :: other != player ==> (other in r <==> other in tasks)
    ensures forall other :: other != player && other in tasks ==> r[other] == tasks[other]
  {
    if player in tasks then tasks else tasks[player := ScheduledTask(player, server, TASK_DELAY_SECONDS, interval)]
  }

  function StartServerStep(s: PluginState, player: Uuid, server: ServerInfo, now: int, http: HttpOutcome): (r: Step<WakeReport>)
    // the task registry
    ensures r.state.serverStartTasks == RegisterTask(s.serverStartTasks, player, server, s.pingInterval)
    ensures r.state.pingTimeout == s.pingTimeout && r.state.pingInterval == s.pingInterval
    // a live mark: nothing is sent and the cache is left alone
    ensures IsStarting(s.startingServers, server.name, now) ==>
      r.state.startingServers == s.startingServers && r.result == WakeReport(None, None)
    // the request fails before the mark is written
    ensures !IsStarting(s.startingServers, server.name, now) && (http.MalformedUrl? || http.OpenFailure?) ==>
      r.state.startingServers == s.startingServers && r.result == WakeReport(None, Some(PluginLogger.SEVERE))
    // the request is sent to http://host:port/start once the mark is written
    ensures !IsStarting(s.startingServers, server.name, now) && (http.ConnectFailure? || http.Response?) ==>
      r.result.requested == Some(StartRequestUrl(server.host, server.port))
    ensures !IsStarting(s.startingServers, server.name, now) && http.ConnectFailure? ==>
      r.state.startingServers == s.startingServers[server.name := now] && r.result.logLevel == Some(PluginLogger.SEVERE)
    // only status 200 keeps the mark
    ensures !IsStarting(s.startingServers, server.name, now) && http.Response? && http.code == HTTP_OK ==>
      r.state.startingServers == s.startingServers[server.name := now] && r.result.logLevel == Some(PluginLogger.INFO)
    ensures !IsStarting(s.startingServers, server.name, now) && http.Response? && http.code != HTTP_OK ==>
      r.state.startingServers == s.startingServers - {server.name} && r.result.logLevel == Some(PluginLogger.WARNING)
    // other servers' marks are untouched
    ensures forall n :: n != server.name ==> (n in r.state.startingServers <==> n in s.startingServers)
    ensures forall n :: n != server.name && n in s.startingServers ==> r.state.startingServers[n] == s.startingServers[n]
    ensures WellFormed(s) ==> WellFormed(r.state)
  {
    var s1 := s.(serverStartTasks := RegisterTask(s.serverStartTasks, player, server, s.pingInterval));
    var name := server.name;
    var url := StartRequestUrl(server.host, server.port);
    if IsStarting(s.startingServers, name, now) then Step(s1, WakeReport(None, None))
    else
      match http
      case MalformedUrl => Step(s1, WakeReport(None, Some(PluginLogger.SEVERE)))
      case OpenFailure => Step(s1, WakeReport(None, Some(PluginLogger.SEVERE)))
      case ConnectFailure =>
        Step(s1.(startingServers := s.startingServers[name := now]), WakeReport(Some(url), Some(PluginLogger.SEVERE)))
      case Response(code) =>
        if code == HTTP_OK then
          Step(s1.(startingServers := s.startingServers[name := now]), WakeReport(Some(url), Some(PluginLogger.INFO)))
        else
          Step(s1.(startingServers := s.startingServers - {name}), WakeReport(Some(url), Some(PluginLogger.WARNING)))
  }

  // ---------------------------------------------------------------------
  // the repeating poll task

  /** What the ping future gave: a ServerPing, null, or an exception from join(). */
  datatype PingResult = Pong | NoPong | PingError

  /** What the connection request's completion handler saw: a successful result, an unsuccessful one, or a throwable (and no result). */
  datatype ConnectResult = Connected | NotConnected | ConnectError

  /** The ping the task sends: to which server and with which timeout, in seconds. */
  datatype Probe = Probe(server: ServerInfo, timeoutSeconds: int)

  /** The "server starting" title: fade-in, stay and fade-out in seconds. */
  datatype Title = Title(player: Uuid, serverName: string, fadeInSeconds: int, staySeconds: int, fadeOutSeconds: int)

  datatype TickOutcome =
    | PlayerGone                                      // the player is no longer on the proxy
    | ConnectRequested(player: Uuid, server: ServerInfo)   // the server answered; the player is sent there
    | TitleShown(title: Title)                        // the server did not answer; the player keeps waiting

  datatype TickReport = TickReport(probe: Option<Probe>, outcome: TickOutcome)

  /**
   * One run of the task registered for id. online says whether the proxy
   * still knows the player; ping and connect are the network's answers.
   */
  function TickStep(s: PluginState, id: Uuid, online: bool, ping: PingResult, connect: ConnectResult): (r: Step<TickReport>)
    requires id in s.serverStartTasks
    ensures r.state.pingTimeout == s.pingTimeout && r.state.pingInterval == s.pingInterval
    ensures forall other :: other != id ==> (other in r.state.serverStartTasks <==> other in s.serverStartTasks)
    ensures forall other :: other != id && other in s.serverStartTasks ==>
      r.state.serverStartTasks[other] == s.serverStartTasks[other]
    // the player left: the task cancels itself, nothing is probed or shown
    ensures !online ==>
      r.result == TickReport(None, PlayerGone) && id !in r.state.serverStartTasks
      && r.state.startingServers == s.startingServers
    // the ping uses the current pingTimeout
    ensures online ==> r.result.probe == Some(Probe(s.serverStartTasks[id].server, s.pingTimeout))
    // the server answered: one connection request, the task is cancelled, the mark goes only on success
    ensures online && ping == Pong ==>
      && r.result.outcome == ConnectRequested(id, s.serverStartTasks[id].server)
      && id !in r.state.serverStartTasks
      && r.state.startingServers ==
           if connect == Connected then s.startingServers - {s.serverStartTasks[id].server.name} else s.startingServers
    // no answer (null or exception): a title lasting one second longer than the interval, and the task stays
    ensures online && ping != Pong ==>
      && r.result.outcome == TitleShown(Title(id, s.serverStartTasks[id].server.name, 0, AddInt32(s.pingInterval, 1), 0))
      && r.state == s
    // the player connected or shown the title is the one the task was built for
    ensures WellFormed(s) && online && ping == Pong ==> r.result.outcome.player == s.serverStartTasks[id].player
    ensures WellFormed(s) && online && ping != Pong ==> r.result.outcome.title.player == s.serverStartTasks[id].player
    ensures WellFormed(s) ==> WellFormed(r.state)
  {
    var task := s.serverStartTasks[id];
    var probe := Probe(task.server, s.pingTimeout);
    if !online then
      Step(CancelStep(s, id).state, TickReport(None, PlayerGone))
    else if ping == Pong then
      var marks := if connect == Connected then s.startingServers - {task.server.name} else s.startingServers;
      Step(CancelStep(s.(startingServers := marks), id).state, TickReport(Some(probe), ConnectRequested(id, task.server)))
    else
      Step(s, TickReport(Some(probe), TitleShown(Title(id, task.server.name, 0, AddInt32(s.pingInterval, 1), 0))))
  }

  /** One call of startServer, as the plugin saw it. */
  datatype StartServerCall = StartServerCall(player: Uuid, server: ServerInfo, report: WakeReport)

  // ---------------------------------------------------------------------
  // the plugin object

  class AutoServer {
    var pingTimeout: Int32
    var pingInterval: Int32
    /** Every startServer call so far: player, server and what it reported. */
    ghost var startServerCalls: seq<StartServerCall>
    var startingServers: map<string, int>
    var serverStartTasks: map<Uuid, ScheduledTask>

    function State(): PluginState
      reads this
    {
      PluginState(pingTimeout, pingInterval, startingServers, serverStartTasks)
    }

    ghost predicate Valid()
      reads this
    {
      WellFormed(State())
    }

    /** A fresh plugin: both settings are 0 until loadConfig runs, and both structures are empty. */
    constructor ()
      ensures Valid()
      ensures State() == PluginState(0, 0, map[], map[])
      ensures startServerCalls == []
    {
      pingTimeout, pingInterval := 0, 0;
      startingServers, serverStartTasks := map[], map[];
      startServerCalls := [];
    }

    method LoadConfig(config: ConfigOutcome) returns (ok: bool)
      requires Valid()
      modifies this
      ensures Valid()
      ensures ok == LoadConfigStep(old(State()), config).result
      ensures State() == LoadConfigStep(old(State()), config).state
      ensures startServerCalls == old(startServerCalls)
    {
      match config
      case DefaultCreationFailed =>
        return false;
      case LoadFailed =>
        return false;
      case Loaded(timeout, interval) =>
        pingTimeout := timeout;
        if pingTimeout < 1 {
          pingTimeout := DEFAULT_PING_TIMEOUT;
        }
        pingInterval := interval;
        if pingInterval < 1 {
          pingInterval := DEFAULT_PING_INTERVAL;
        }
        return true;
    }

    method CancelServerTask(playerId: Uuid) returns (cancelled: Option<ScheduledTask>)
      requires Valid()
      modifies this
      ensures Valid()
      ensures cancelled == CancelStep(old(State()), playerId).result
      ensures State() == CancelStep(old(State()), playerId).state
      ensures startServerCalls == old(startServerCalls)
    {
      cancelled := if playerId in serverStartTasks then Some(serverStartTasks[playerId]) else None;
      serverStartTasks := serverStartTasks - {playerId};
    }

    method StartServer(player: Uuid, server: ServerInfo, now: int, http: HttpOutcome) returns (report: WakeReport)
      requires Valid()
      modifies this
      ensures Valid()
      ensures report == StartServerStep(old(State()), player, server, now, http).result
      ensures State() == StartServerStep(old(State()), player, server, now, http).state
      ensures startServerCalls == old(startServerCalls) + [StartServerCall(player, server, report)]
    {
      if player !in serverStartTasks {
        serverStartTasks := serverStartTasks[player := ScheduledTask(player, server, TASK_DELAY_SECONDS, pingInterval)];
      }
      if IsStarting(startingServers, server.name, now) {
        report := WakeReport(None, None);
      } else {
        match http
        case MalformedUrl =>
          report := WakeReport(None, Some(PluginLogger.SEVERE));
        case OpenFailure =>
          report := WakeReport(None, Some(PluginLogger.SEVERE));
        case ConnectFailure =>
          var url := StartRequestUrl(server.host, server.port);
          startingServers := startingServers[server.name := now];
          report := WakeReport(Some(url), Some(PluginLogger.SEVERE));
        case Response(code) =>
          var url := StartRequestUrl(server.host, server.port);
          startingServers := startingServers[server.name := now];
          if code == HTTP_OK {
            report := WakeReport(Some(url), Some(PluginLogger.INFO));
          } else {
            startingServers := startingServers - {server.name};
            report := WakeReport(Some(url), Some(PluginLogger.WARNING));
          }
      }
      startServerCalls := startServerCalls + [StartServerCall(player, server, report)];
    }

    /** One run of the poll task registered for playerId, as the scheduler fires it. */
    method Tick(playerId: Uuid, online: bool, ping: PingResult, connect: ConnectResult) returns (report: TickReport)
      requires Valid()
      requires playerId in serverStartTasks
      modifies this
      ensures Valid()
      ensures report == TickStep(old(State()), playerId, online, ping, connect).result
      ensures State() == TickStep(old(State()), playerId, online, ping, connect).state
      ensures startServerCalls == old(startServerCalls)
    {
      var task := serverStartTasks[playerId];
      if !online {
        var _ := CancelServerTask(playerId);
        return TickReport(None, PlayerGone);
      }
      var probe := Probe(task.server, pingTimeout);
      if ping == Pong {
        if connect == Connected {
          startingServers := startingServers - {task.server.name};
        }
        var _ := CancelServerTask(playerId);
        return TickReport(Some(probe), ConnectRequested(playerId, task.server));
      }
      report := TickReport(Some(probe), TitleShown(Title(playerId, task.server.name, 0, AddInt32(pingInterval, 1), 0)));
    }
  }
}
