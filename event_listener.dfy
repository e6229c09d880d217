/**
 * The plugin's event handlers: choosing a fallback while the requested
 * server is down and starting it, and cancelling a player's poll task when
 * the player disconnects or moves on from a fallback server.
 */
module EventListener {
  import opened Wrappers
  import opened StartUrl
  import opened AutoServer

  /** What the handlers ask the proxy: the attempt-connection order and the registered servers by name. */
  datatype ProxyView = ProxyView(attemptConnectionOrder: seq<string>, servers: map<string, ServerInfo>)

  /** A name in the attempt order that can take the player: registered, and not the server it was headed for. */
  predicate IsFallback(name: string, servers: map<string, ServerInfo>, original: ServerInfo)
  {
    name in servers && servers[name] != original
  }

  /** The first usable fallback in the attempt order, if any. */
  function FirstFallback(order: seq<string>, servers: map<string, ServerInfo>, original: ServerInfo): (r: Option<ServerInfo>)
    ensures r.None? <==> forall k :: 0 <= k < |order| ==> !IsFallback(order[k], servers, original)
    ensures r.Some? ==> r.value != original && r.value in servers.Values
  {
    if order == [] then None
    else if IsFallback(order[0], servers, original) then Some(servers[order[0]])
    else FirstFallback(order[1..], servers, original)
  }

  /** The entry chosen is the first usable one: later entries are never picked over it. */
  lemma {:induction false} FirstFallbackIsFirst(order: seq<string>, servers: map<string, ServerInfo>, original: ServerInfo, k: nat)
    requires k < |order| && IsFallback(order[k], servers, original)
    requires forall j :: 0 <= j < k ==> !IsFallback(order[j], servers, original)
    ensures FirstFallback(order, servers, original) == Some(servers[order[k]])
  {
    if k > 0 {
      assert !IsFallback(order[0], servers, original);
      FirstFallbackIsFirst(order[1..], servers, original, k - 1);
    }
  }

  /** The loop over the attempt-connection order that stops at the first usable fallback. */
  method FindFallback(order: seq<string>, servers: map<string, ServerInfo>, original: ServerInfo) returns (fallback: Option<ServerInfo>)
    ensures fallback == FirstFallback(order, servers, original)
  {
    var i := 0;
    while i < |order|
      invariant 0 <= i <= |order|
      invariant FirstFallback(order, servers, original) == FirstFallback(order[i..], servers, original)
    {
      var name := order[i];
      if name in servers && servers[name] != original {
        return Some(servers[name]);
      }
      assert order[i..][1..] == order[i + 1..];
      i := i + 1;
    }
    return None;
  }

  /** What onSelectServer ends up doing: leave the choice alone, or set the initial server and start it. */
  datatype Selection = KeepChoice | StartAndWait(initialServer: ServerInfo)

  /**
   * The decision of onSelectServer. The initial server is taken as online
   * when it has players or answers the ping. A ping that fails with an
   * exception is not caught: the handler stops there, leaving the choice as it is.
   */
  function SelectServer(initial: Option<ServerInfo>, hasPlayers: bool, ping: PingResult, proxy: ProxyView): (d: Selection)
    ensures d.KeepChoice? <==> initial.None? || hasPlayers || ping != NoPong
    ensures d.StartAndWait? ==>
      var fallback := FirstFallback(proxy.attemptConnectionOrder, proxy.servers, initial.value);
      && (fallback.Some? ==> d.initialServer == fallback.value)
      && (d.initialServer == initial.value <==> fallback.None?)
  {
    if initial.None? || hasPlayers then KeepChoice
    else if ping != NoPong then KeepChoice
    else
      match FirstFallback(proxy.attemptConnectionOrder, proxy.servers, initial.value)
      case Some(f) => StartAndWait(f)
      case None => StartAndWait(initial.value)
  }

  /**
   * As written, the server that is started is the fallback: a player who asked
   * for "survival" while it was down is sent to "lobby", the start request
   * goes to lobby's address and the poll task polls lobby, so survival is
   * never started.
   */
  lemma StartsFallbackInsteadOfRequested()
    ensures
      var survival := ServerInfo("survival", "10.0.0.3", 25567);
      var lobby := ServerInfo("lobby", "10.0.0.2", 25566);
      var proxy := ProxyView(["lobby"], map["lobby" := lobby, "survival" := survival]);
      var player := Uuid(0, 7);
      var d := SelectServer(Some(survival), false, NoPong, proxy);
      var r := StartServerStep(PluginState(3, 10, map[], map[]), player, d.initialServer, 0, Response(HTTP_OK));
      && d == StartAndWait(lobby)
      && r.result.requested == Some(StartRequestUrl(lobby.host, lobby.port))
      && r.state.serverStartTasks[player].server == lobby
      && "survival" !in r.state.startingServers
  {
  }

  /** The evidently intended routing: the player goes to the fallback, and the server the player asked for is started. */
  datatype Route = KeepRoute | Reroute(initialServer: ServerInfo, startTarget: ServerInfo)

  function IntendedSelectServer(initial: Option<ServerInfo>, hasPlayers: bool, ping: PingResult, proxy: ProxyView): (d: Route)
    ensures d.KeepRoute? <==> initial.None? || hasPlayers || ping != NoPong
    ensures d.Reroute? ==> d.startTarget == initial.value
    ensures d.Reroute? ==>
      var fallback := FirstFallback(proxy.attemptConnectionOrder, proxy.servers, initial.value);
      && (fallback.Some? ==> d.initialServer == fallback.value)
      && (fallback.None? ==> d.initialServer == initial.value)
  {
    if initial.None? || hasPlayers || ping != NoPong then KeepRoute
    else
      match FirstFallback(proxy.attemptConnectionOrder, proxy.servers, initial.value)
      case Some(f) => Reroute(f, initial.value)
      case None => Reroute(initial.value, initial.value)
  }

  /**
   * With the intended routing the start request goes to the requested server
   * and a new poll task polls it, whatever fallback the player waits on.
   */
  lemma IntendedRouteStartsRequestedServer(s: PluginState, player: Uuid, requested: ServerInfo, proxy: ProxyView, now: int, code: int)
    requires player !in s.serverStartTasks
    requires !IsStarting(s.startingServers, requested.name, now)
    ensures var d := IntendedSelectServer(Some(requested), false, NoPong, proxy);
            var r := StartServerStep(s, player, d.startTarget, now, Response(code));
            && r.result.requested == Some(StartRequestUrl(requested.host, requested.port))
            && r.state.serverStartTasks[player].server == requested
  {
  }

  /** PlayerChooseInitialServerEvent: the joining player and the server it will be sent to, which handlers may change. */
  class PlayerChooseInitialServerEvent {
    const player: Uuid
    var initialServer: Option<ServerInfo>

    constructor (player: Uuid, initialServer: Option<ServerInfo>)
      ensures this.player == player && this.initialServer == initialServer
    {
      this.player := player;
      this.initialServer := initialServer;
    }
  }

  class EventListener {
    const plugin: AutoServer

    constructor (plugin: AutoServer)
      ensures this.plugin == plugin
    {
      this.plugin := plugin;
    }

    /**
     * onSelectServer: when the chosen server is empty and does not answer,
     * send the player to the first fallback and start the server the event
     * now names, which is the fallback if one was found. The result is what
     * startServer reported, if it was called.
     */
    method OnSelectServer(event: PlayerChooseInitialServerEvent, proxy: ProxyView, hasPlayers: bool, ping: PingResult,
                          now: int, http: HttpOutcome) returns (wake: Option<WakeReport>)
      requires plugin.Valid()
      modifies event, plugin
      ensures plugin.Valid()
      ensures SelectServer(old(event.initialServer), hasPlayers, ping, proxy).KeepChoice? ==>
        && event.initialServer == old(event.initialServer)
        && plugin.State() == old(plugin.State())
        && plugin.startServerCalls == old(plugin.startServerCalls)
        && wake == None
      ensures SelectServer(old(event.initialServer), hasPlayers, ping, proxy).StartAndWait? ==>
        var target := SelectServer(old(event.initialServer), hasPlayers, ping, proxy).initialServer;
        var step := StartServerStep(old(plugin.State()), event.player, target, now, http);
        && event.initialServer == Some(target)
        && plugin.State() == step.state
        && plugin.startServerCalls == old(plugin.startServerCalls) + [StartServerCall(event.player, target, step.result)]
        && wake == Some(step.result)
    {
      if event.initialServer.None? || hasPlayers {
        return None;
      }
      if ping != NoPong {
        return None;
      }
      var fallback := FindFallback(proxy.attemptConnectionOrder, proxy.servers, event.initialServer.value);
      if fallback.Some? {
        event.initialServer := fallback;
      }
      var report := plugin.StartServer(event.player, event.initialServer.value, now, http);
      wake := Some(report);
    }

    /** onPlayerQuit: a disconnect always cancels the player's task, if there is one. */
    method OnPlayerQuit(player: Uuid)
      requires plugin.Valid()
      modifies plugin
      ensures plugin.Valid()
      ensures plugin.State() == CancelStep(old(plugin.State()), player).state
      ensures plugin.startServerCalls == old(plugin.startServerCalls)
    {
      var _ := plugin.CancelServerTask(player);
    }

    /** onServerSwitch: the task is cancelled only when the player comes from a server named in the attempt order. */
    method OnServerSwitch(player: Uuid, previous: Option<ServerInfo>, proxy: ProxyView)
      requires plugin.Valid()
      modifies plugin
      ensures plugin.Valid()
      ensures previous.Some? && previous.value.name in proxy.attemptConnectionOrder ==>
        plugin.State() == CancelStep(old(plugin.State()), player).state
      ensures !(previous.Some? && previous.value.name in proxy.attemptConnectionOrder) ==>
        plugin.State() == old(plugin.State())
      ensures plugin.startServerCalls == old(plugin.startServerCalls)
    {
      if previous.Some? && previous.value.name in proxy.attemptConnectionOrder {
        var _ := plugin.CancelServerTask(player);
      }
    }
  }
}
