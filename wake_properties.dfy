/**
 * Properties of the AutoServer bookkeeping that relate several calls:
 * what a second startServer for the same player or the same server does,
 * when a start request is sent again, how a poll task behaves over many
 * runs of the scheduler, and that cancelling twice is cancelling once.
 */
module WakeProperties {
  import opened Wrappers
  import opened StartUrl
  import opened AutoServer

  /** The request keeps the mark it wrote: anything but a status other than 200. */
  predicate KeepsMark(http: HttpOutcome)
  {
    !(http.Response? && http.code != HTTP_OK)
  }

  // ---------------------------------------------------------------------
  // the task registry

  /** A second startServer for a player never replaces the player's task, whatever server it names. */
  lemma SecondStartKeepsFirstTask(s: PluginState, p: Uuid, a: ServerInfo, b: ServerInfo, t1: int, t2: int, h1: HttpOutcome, h2: HttpOutcome)
    ensures var s1 := StartServerStep(s, p, a, t1, h1).state;
            var s2 := StartServerStep(s1, p, b, t2, h2).state;
            && s2.serverStartTasks == s1.serverStartTasks
            && s2.serverStartTasks[p].server == (if p in s.serverStartTasks then s.serverStartTasks[p].server else a)
  {
  }

  /** The start request is about the server passed in, even when the player's existing task polls another one. */
  lemma KeptTaskStillWakesNewServer(s: PluginState, p: Uuid, b: ServerInfo, now: int, code: int)
    requires p in s.serverStartTasks && s.serverStartTasks[p].server != b
    requires !IsStarting(s.startingServers, b.name, now)
    ensures var r := StartServerStep(s, p, b, now, Response(code));
            && r.state.serverStartTasks[p].server != b
            && r.result.requested == Some(StartRequestUrl(b.host, b.port))
  {
  }

  /** Cancelling is idempotent: the second cancel finds nothing and changes nothing. */
  lemma CancelIdempotent(s: PluginState, id: Uuid)
    ensures var once := CancelStep(s, id).state;
            CancelStep(once, id) == Step(once, None)
  {
  }

  // ---------------------------------------------------------------------
  // the start request throttle

  /**
   * Once a request has been sent and its mark kept, any player's startServer
   * for a server of the same name within the next two minutes sends nothing.
   */
  lemma LiveMarkSuppressesWake(s: PluginState, p: Uuid, q: Uuid, server: ServerInfo, other: ServerInfo,
                               t1: int, t2: int, h1: HttpOutcome, h2: HttpOutcome)
    requires !IsStarting(s.startingServers, server.name, t1)
    requires h1.ConnectFailure? || h1 == Response(HTTP_OK)
    requires other.name == server.name
    requires t1 <= t2 < t1 + STARTING_EXPIRY_SECONDS
    ensures var s1 := StartServerStep(s, p, server, t1, h1).state;
            StartServerStep(s1, q, other, t2, h2).result == WakeReport(None, None)
  {
  }

  /** After two minutes the mark has expired and the next startServer sends the request again. */
  lemma MarkExpires(s: PluginState, p: Uuid, q: Uuid, server: ServerInfo, t1: int, t2: int, h1: HttpOutcome, h2: HttpOutcome)
    requires !IsStarting(s.startingServers, server.name, t1)
    requires h1.ConnectFailure? || h1 == Response(HTTP_OK)
    requires h2.ConnectFailure? || h2.Response?
    requires t2 >= t1 + STARTING_EXPIRY_SECONDS
    ensures var s1 := StartServerStep(s, p, server, t1, h1).state;
            StartServerStep(s1, q, server, t2, h2).result.requested == Some(StartRequestUrl(server.host, server.port))
  {
  }

  /** A status other than 200 removes the mark, so the very next startServer sends the request again. */
  lemma RejectedStartIsRetried(s: PluginState, p: Uuid, q: Uuid, server: ServerInfo, t1: int, t2: int, code: int, h2: HttpOutcome)
    requires !IsStarting(s.startingServers, server.name, t1)
    requires code != HTTP_OK
    requires h2.ConnectFailure? || h2.Response?
    ensures var s1 := StartServerStep(s, p, server, t1, Response(code)).state;
            StartServerStep(s1, q, server, t2, h2).result.requested == Some(StartRequestUrl(server.host, server.port))
  {
  }

  /** A failure before the mark is written leaves no mark behind: the next startServer tries again. */
  lemma EarlyFailureLeavesNoMark(s: PluginState, p: Uuid, server: ServerInfo, now: int, h: HttpOutcome)
    requires !IsStarting(s.startingServers, server.name, now)
    requires h.MalformedUrl? || h.OpenFailure?
    ensures var r := StartServerStep(s, p, server, now, h);
            r.result.requested == None && !IsStarting(r.state.startingServers, server.name, now)
  {
  }

  /** A poll that connects the player successfully clears the mark: a later start request is not held back. */
  lemma ConnectedTickClearsMark(s: PluginState, id: Uuid, q: Uuid, t: int, h: HttpOutcome)
    requires id in s.serverStartTasks
    requires h.ConnectFailure? || h.Response?
    ensures var server := s.serverStartTasks[id].server;
            var s1 := TickStep(s, id, true, Pong, Connected).state;
            StartServerStep(s1, q, server, t, h).result.requested == Some(StartRequestUrl(server.host, server.port))
  {
  }

  /** One startServer call, as a caller makes it. */
  datatype StartCall = StartCall(player: Uuid, server: ServerInfo, now: int, http: HttpOutcome)

  /** A start request that went out: for which server name, and when. */
  datatype Wake = Wake(name: string, time: int)

  /** Runs startServer calls in order and lists the start requests they sent. */
  function RunStarts(s: PluginState, calls: seq<StartCall>): (r: (PluginState, seq<Wake>))
    decreases |calls|
  {
    if calls == [] then (s, [])
    else
      var before := RunStarts(s, calls[..|calls| - 1]);
      var c := calls[|calls| - 1];
      var step := StartServerStep(before.0, c.player, c.server, c.now, c.http);
      (step.state, if step.result.requested.Some? then before.1 + [Wake(c.server.name, c.now)] else before.1)
  }

  predicate Nondecreasing(calls: seq<StartCall>)
  {
    forall i, j :: 0 <= i < j < |calls| ==> calls[i].now <= calls[j].now
  }

  /**
   * While every request's mark is kept, each sent request leaves a mark for
   * its server no older than the request, and no request is later than the
   * last call.
   */
  lemma {:induction false} RunStartsMarks(s: PluginState, calls: seq<StartCall>)
    requires Nondecreasing(calls)
    requires forall k :: 0 <= k < |calls| ==> KeepsMark(calls[k].http)
    ensures calls == [] ==> RunStarts(s, calls).1 == []
    ensures forall k :: 0 <= k < |RunStarts(s, calls).1| ==> RunStarts(s, calls).1[k].time <= calls[|calls| - 1].now
    ensures forall k :: 0 <= k < |RunStarts(s, calls).1| ==>
              && RunStarts(s, calls).1[k].name in RunStarts(s, calls).0.startingServers
              && RunStarts(s, calls).0.startingServers[RunStarts(s, calls).1[k].name] >= RunStarts(s, calls).1[k].time
    decreases |calls|
  {
    if calls != [] {
      var init := calls[..|calls| - 1];
      assert Nondecreasing(init);
      RunStartsMarks(s, init);
      var before := RunStarts(s, init);
      var c := calls[|calls| - 1];
      var step := StartServerStep(before.0, c.player, c.server, c.now, c.http);
      var r := RunStarts(s, calls);
      assert r.0 == step.state;
      assert forall k :: 0 <= k < |before.1| ==> before.1[k].time <= c.now by {
        if init != [] {
          assert init[|init| - 1].now <= c.now;
        }
      }
      forall k | 0 <= k < |before.1|
        ensures before.1[k].name in step.state.startingServers
        ensures step.state.startingServers[before.1[k].name] >= before.1[k].time
      {
        var n := before.1[k].name;
        if n == c.server.name && !IsStarting(before.0.startingServers, n, c.now) && (c.http.ConnectFailure? || c.http.Response?) {
          assert step.state.startingServers == before.0.startingServers[n := c.now];
        }
      }
      if step.result.requested.Some? {
        assert r.1 == before.1 + [Wake(c.server.name, c.now)];
        assert step.state.startingServers == before.0.startingServers[c.server.name := c.now];
      } else {
        assert r.1 == before.1;
      }
    }
  }

  /**
   * At most one start request per server name per two-minute window: as long
   * as no request is answered with a status other than 200 (which removes the
   * mark on purpose), two requests for the same name are at least 120 seconds
   * apart, whichever players asked.
   */
  lemma {:induction false} WakesAreSpaced(s: PluginState, calls: seq<StartCall>)
    requires Nondecreasing(calls)
    requires forall k :: 0 <= k < |calls| ==> KeepsMark(calls[k].http)
    ensures forall i, j :: 0 <= i < j < |RunStarts(s, calls).1| && RunStarts(s, calls).1[i].name == RunStarts(s, calls).1[j].name ==>
              RunStarts(s, calls).1[j].time >= RunStarts(s, calls).1[i].time + STARTING_EXPIRY_SECONDS
    decreases |calls|
  {
    if calls != [] {
      var init := calls[..|calls| - 1];
      assert Nondecreasing(init);
      WakesAreSpaced(s, init);
      RunStartsMarks(s, init);
      var before := RunStarts(s, init);
      var c := calls[|calls| - 1];
      var step := StartServerStep(before.0, c.player, c.server, c.now, c.http);
      if step.result.requested.Some? {
        var wakes := RunStarts(s, calls).1;
        assert wakes == before.1 + [Wake(c.server.name, c.now)];
        assert !IsStarting(before.0.startingServers, c.server.name, c.now);
        forall i | 0 <= i < |before.1| && before.1[i].name == c.server.name
          ensures c.now >= before.1[i].time + STARTING_EXPIRY_SECONDS
        {
          assert before.1[i].name in before.0.startingServers;
          assert before.0.startingServers[c.server.name] >= before.1[i].time;
        }
        forall i, j | 0 <= i < j < |wakes| && wakes[i].name == wakes[j].name
          ensures wakes[j].time >= wakes[i].time + STARTING_EXPIRY_SECONDS
        {
          if j < |before.1| {
            assert wakes[i] == before.1[i] && wakes[j] == before.1[j];
          } else {
            assert wakes[i] == before.1[i] && wakes[j] == Wake(c.server.name, c.now);
          }
        }
      } else {
        assert RunStarts(s, calls).1 == before.1;
      }
    }
  }

  // ---------------------------------------------------------------------
  // the poll task over many runs

  /** What the world looks like at one run of the task. */
  datatype Poll = Poll(online: bool, ping: PingResult, connect: ConnectResult)

  /** The scheduler firing the player's task once per poll, for as long as the task is registered. */
  function RunTask(s: PluginState, id: Uuid, polls: seq<Poll>): (r: (PluginState, seq<TickOutcome>))
    decreases |polls|
  {
    if polls == [] || id !in s.serverStartTasks then (s, [])
    else
      var step := TickStep(s, id, polls[0].online, polls[0].ping, polls[0].connect);
      var rest := RunTask(step.state, id, polls[1..]);
      (rest.0, [step.result.outcome] + rest.1)
  }

  /** A player who stays online against a silent server sees exactly one title per run, and nothing else changes. */
  lemma {:induction false} WaitingShowsOneTitlePerRun(s: PluginState, id: Uuid, polls: seq<Poll>)
    requires id in s.serverStartTasks
    requires forall k :: 0 <= k < |polls| ==> polls[k].online && polls[k].ping != Pong
    ensures var r := RunTask(s, id, polls);
            && r.0 == s
            && |r.1| == |polls|
            && forall k :: 0 <= k < |r.1| ==>
                 r.1[k] == TitleShown(Title(id, s.serverStartTasks[id].server.name, 0, AddInt32(s.pingInterval, 1), 0))
    decreases |polls|
  {
    if polls != [] {
      WaitingShowsOneTitlePerRun(s, id, polls[1..]);
    }
  }

  /**
   * The task ends at its first run that does not show a title: every earlier
   * outcome is a title, and once it ends it is no longer registered, so at
   * most one connection request is ever made.
   */
  lemma {:induction false} TaskEndsAtFirstExit(s: PluginState, id: Uuid, polls: seq<Poll>)
    ensures var r := RunTask(s, id, polls);
            && |r.1| <= |polls|
            && (forall k :: 0 <= k < |r.1| - 1 ==> r.1[k].TitleShown?)
            && (r.1 != [] && !r.1[|r.1| - 1].TitleShown? ==> id !in r.0.serverStartTasks)
            && (forall other :: other != id ==> (other in r.0.serverStartTasks <==> other in s.serverStartTasks))
    decreases |polls|
  {
    if polls != [] && id in s.serverStartTasks {
      var step := TickStep(s, id, polls[0].online, polls[0].ping, polls[0].connect);
      TaskEndsAtFirstExit(step.state, id, polls[1..]);
      if !step.result.outcome.TitleShown? {
        assert RunTask(step.state, id, polls[1..]) == (step.state, []);
      }
    }
  }

  // ---------------------------------------------------------------------
  // a worked run

  /**
   * Server lobby-2 is offline; timeout 3 s, interval 10 s. Player A asks at
   * t=0 and the request is accepted; A's first poll at t=1 finds nothing and
   * shows a title for 11 s; player B asks at t=5 and no second request is
   * sent; A's poll at t=11 gets an answer and connects, which clears the mark
   * and removes A's task while B's stays.
   */
  lemma LobbyScenario()
    ensures
      var lobby := ServerInfo("lobby-2", "10.0.0.2", 25566);
      var a := Uuid(0, 1);
      var b := Uuid(0, 2);
      var s0 := PluginState(3, 10, map[], map[]);
      var r0 := StartServerStep(s0, a, lobby, 0, Response(200));
      var r1 := TickStep(r0.state, a, true, NoPong, NotConnected);
      var r5 := StartServerStep(r1.state, b, lobby, 5, Response(200));
      var r11 := TickStep(r5.state, a, true, Pong, Connected);
      && r0.result.requested == Some(StartRequestUrl("10.0.0.2", 25566))
      && r1.result.outcome == TitleShown(Title(a, "lobby-2", 0, 11, 0))
      && r5.result.requested == None
      && b in r5.state.serverStartTasks
      && r11.result.outcome == ConnectRequested(a, lobby)
      && "lobby-2" !in r11.state.startingServers
      && a !in r11.state.serverStartTasks && b in r11.state.serverStartTasks
  {
  }
}
