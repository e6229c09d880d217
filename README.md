# AutoServer wake-and-wait bookkeeping, modelled in Dafny

AutoServer is a Velocity proxy plugin that starts backend Minecraft servers on demand. A player may join toward a server that is down. The plugin then sends the player to the first fallback server of the attempt order. Next it sends an HTTP start request (`http://host:port/start`) for the server the join event names at that point. It also schedules a poll task for the player against that server. As the code is written, that server is the fallback whenever one was found, not the server the player asked for (see "## Findings"). Every `pingInterval` seconds that task pings the server and shows a "server starting" title. Once the server answers, the task connects the player. The plugin keeps two structures:

- `serverStartTasks`: at most one poll task per player id.
- `startingServers`: a cache of server names whose start request is outstanding. Each entry expires two minutes after it is written.

The model covers:

- `wrappers.dfy`: `Option`, which stands for Java's `null` and `Optional`.
- `plugin_logger.dfy` (`PluginLogger`): how `VelocityPluginLogger` maps a `java.util.logging` level (its `intValue()`) to one of five slf4j sinks.
- `start_url.dfy` (`StartUrl`): the start request address built from a host string and a port. It also has an inverse parser, used to prove that the address determines host and port.
- `auto_server.dfy` (`AutoServer`): the plugin's fields as a value `PluginState`. Each operation is a step function whose `ensures` say what it does: `loadConfig`, `startServer`, one run of the poll task, and `cancelServerTask`. The class `AutoServer` updates the same fields in place. Each of its methods is proved to follow its step function and to keep the invariant `WellFormed`: every task is registered under its own player, with the one-second initial delay.
- `wake_properties.dfy` (`WakeProperties`): properties that relate several calls. These cover the registry, the throttle over any number of `startServer` calls, and the poll task over any number of scheduler runs. It ends with a worked run.
- `event_listener.dfy` (`EventListener`): the three event handlers. The fallback loop is a method proved against the function `FirstFallback`.

The network and the scheduler are replaced by inputs:

- the HTTP outcome (`MalformedUrl`, `OpenFailure`, `ConnectFailure` or `Response(code)`);
- the ping result (`Pong`, `NoPong` for null, `PingError` for an exception);
- the connection result (`Connected`, `NotConnected`, `ConnectError`);
- whether the player is still online;
- the current time in seconds.

The two settings and the values read from the configuration are 32-bit Java ints (`Int32`). The title's stay of `pingInterval + 1` seconds is computed with Java's wrapping int addition. The class also keeps a ghost log of every `startServer` call, so callers can state how many calls they made.

A cache entry counts as live while `now - writeTime < 120`. The caller runs the poll task by calling `Tick` for a player that has a registered task. The scheduler only fires tasks that were not cancelled, and every cancellation removes the task from the registry.

The model follows the code where a cleaner design would differ:

- A second `startServer` for the same player keeps the existing task (`computeIfAbsent`) and does not replace it. The start request still goes to the newly named server (`SecondStartKeepsFirstTask`, `KeptTaskStillWakesNewServer`).
- Only status 200 keeps the cache mark. Any other status removes it, so the next request is sent at once (`RejectedStartIsRetried`). A connect or read failure after the mark was written leaves the mark in place until it expires (`MarkExpires`).
- The promise of at most one start request per server per two minutes holds only for calls that do not overlap, and only while every response keeps the mark. The check of the mark and the write of the mark are separated by `openConnection` and are not atomic, so two overlapping calls can both send. `WakesAreSpaced` states it under that condition. A successful connection also clears the mark (`ConnectedTickClearsMark`).
- The poll task has no attempt limit. It runs until the player leaves, the server answers, or the task is cancelled.
- In `onSelectServer`, a ping that fails with an exception is not caught (`join()` throws). The handler stops, and neither the event nor the plugin changes.

## Model

| member | source | states |
|---|---|---|
| PluginLogger.SinkFor | velocity/src/main/java/de/themoep/autoserver/velocity/VelocityPluginLogger.java:39-51 | below FINER (400) goes to trace; [FINER, INFO) to debug; [INFO, WARNING) to info; [WARNING, SEVERE) to warn; SEVERE and above to error; each condition is both necessary and sufficient |
| PluginLogger.SeverityCountsThresholds | velocity/src/main/java/de/themoep/autoserver/velocity/VelocityPluginLogger.java:40-50 | the chosen sink's severity equals the number of thresholds 400, 800, 900, 1000 the level reaches (independent definition of the chain) |
| PluginLogger.SinkForMonotone | velocity/src/main/java/de/themoep/autoserver/velocity/VelocityPluginLogger.java:40-50 | a higher level never goes to a less severe sink |
| PluginLogger.StandardLevels | velocity/src/main/java/de/themoep/autoserver/velocity/VelocityPluginLogger.java:40-49 | FINEST goes to trace, FINER/FINE/CONFIG to debug, INFO to info, WARNING to warn, SEVERE to error |
| PluginLogger.Log | velocity/src/main/java/de/themoep/autoserver/velocity/VelocityPluginLogger.java:39-51 | exactly one sink call, on the sink chosen for the level, passing message and throwable on unchanged |
| PluginLogger.LogWithoutThrowable | velocity/src/main/java/de/themoep/autoserver/velocity/VelocityPluginLogger.java:34-36 | the two-argument log is the three-argument log with a null throwable |
| StartUrl.DecimalString | velocity/src/main/java/de/themoep/autoserver/velocity/AutoServer.java:187 | the port's text is a non-empty digit string without a leading zero |
| StartUrl.DecimalRoundTrip | velocity/src/main/java/de/themoep/autoserver/velocity/AutoServer.java:187 | the port's text reads back as the port |
| StartUrl.StartRequestUrl | velocity/src/main/java/de/themoep/autoserver/velocity/AutoServer.java:187 | the address starts with "http://", ends with "/start" and has the length of host, ":" and port text between them |
| StartUrl.StartRequestUrlRoundTrip | velocity/src/main/java/de/themoep/autoserver/velocity/AutoServer.java:187 | host string and port are recovered from the address, even when the host contains ':' |
| StartUrl.StartRequestUrlInjective | velocity/src/main/java/de/themoep/autoserver/velocity/AutoServer.java:187 | two servers share a start address only if they share host and port |
| AutoServer.AddInt32 | velocity/src/main/java/de/themoep/autoserver/velocity/AutoServer.java:176 | Java int addition: the exact sum when it fits in 32 bits, otherwise the sum wrapped by 2^32 |
| AutoServer.TitleStayWraps | velocity/src/main/java/de/themoep/autoserver/velocity/AutoServer.java:176 | the title stay pingInterval + 1 is one more than the interval except at the largest int, where it wraps to -2147483648 |
| AutoServer.SettingOrDefault | velocity/src/main/java/de/themoep/autoserver/velocity/AutoServer.java:105-114 | a configured value of at least 1 is kept; a value below 1 becomes the default; the result is at least 1 |
| AutoServer.LoadConfigStep | velocity/src/main/java/de/themoep/autoserver/velocity/AutoServer.java:88-117 | true exactly when the file was created and loaded; then pingTimeout and pingInterval are the configured values or 3 and 10, both at least 1; on failure nothing changes; tasks and marks are never touched |
| AutoServer.AutoServer.LoadConfig | velocity/src/main/java/de/themoep/autoserver/velocity/AutoServer.java:88-117 | the in-place field updates and the return value are those of LoadConfigStep |
| AutoServer.CancelStep | velocity/src/main/java/de/themoep/autoserver/velocity/AutoServer.java:209-214 | the player's task is gone afterwards and is the one cancelled; an absent id changes nothing; other players' tasks and all marks are unchanged; WellFormed is kept |
| AutoServer.AutoServer.CancelServerTask | velocity/src/main/java/de/themoep/autoserver/velocity/AutoServer.java:209-214 | removes the entry in place and returns the task it cancels, as CancelStep says |
| AutoServer.RegisterTask | velocity/src/main/java/de/themoep/autoserver/velocity/AutoServer.java:146-178 | computeIfAbsent: an existing task is kept unchanged; otherwise a task for this player and server, delay 1 s, repeat pingInterval, is added; no other entry changes |
| AutoServer.StartServerStep | velocity/src/main/java/de/themoep/autoserver/velocity/AutoServer.java:145-207 | registers the task; a live mark means nothing is sent and the cache is unchanged; a malformed URL or failing openConnection leaves the cache unchanged and logs SEVERE; otherwise the request goes to http://host:port/start after the mark is written; status 200 keeps the mark, any other status removes it, a connect failure keeps it; other names' marks are untouched |
| AutoServer.AutoServer.StartServer | velocity/src/main/java/de/themoep/autoserver/velocity/AutoServer.java:145-207 | the in-place updates and the report are those of StartServerStep; the call, with its report, is appended to the log of startServer calls |
| AutoServer.TickStep | velocity/src/main/java/de/themoep/autoserver/velocity/AutoServer.java:146-178 | player gone: task removed, no probe, no title; ping answered: one connection request to the task's server, task removed, mark cleared only if the connection succeeded; null or exception: a title with stay pingInterval + 1 s (32-bit int addition) and zero fades, state unchanged; the ping uses the current pingTimeout; the player connected or shown the title is the task's own player; other tasks unchanged |
| AutoServer.AutoServer.Tick | velocity/src/main/java/de/themoep/autoserver/velocity/AutoServer.java:147-177 | the in-place updates and the report are those of TickStep |
| AutoServer.AutoServer.constructor | velocity/src/main/java/de/themoep/autoserver/velocity/AutoServer.java:69-73 | both settings 0, both structures empty and no startServer call made before loadConfig |
| WakeProperties.SecondStartKeepsFirstTask | velocity/src/main/java/de/themoep/autoserver/velocity/AutoServer.java:146 | a second startServer for a player leaves the registry as the first left it; the task targets the first server asked for |
| WakeProperties.KeptTaskStillWakesNewServer | velocity/src/main/java/de/themoep/autoserver/velocity/AutoServer.java:145-191 | when the player's existing task polls another server, the start request still goes to the newly named server |
| WakeProperties.CancelIdempotent | velocity/src/main/java/de/themoep/autoserver/velocity/AutoServer.java:209-214 | cancelling twice is cancelling once; the second cancel returns no task |
| WakeProperties.LiveMarkSuppressesWake | velocity/src/main/java/de/themoep/autoserver/velocity/AutoServer.java:180-183 | after a request whose mark was kept, any player's startServer for the same name within 120 s sends nothing |
| WakeProperties.MarkExpires | velocity/src/main/java/de/themoep/autoserver/velocity/AutoServer.java:72 | 120 s or more after the mark was written, the request is sent again |
| WakeProperties.RejectedStartIsRetried | velocity/src/main/java/de/themoep/autoserver/velocity/AutoServer.java:191-198 | after a non-200 status the next startServer sends the request again at once |
| WakeProperties.EarlyFailureLeavesNoMark | velocity/src/main/java/de/themoep/autoserver/velocity/AutoServer.java:186-206 | a malformed URL or failing openConnection sends nothing and leaves no live mark |
| WakeProperties.ConnectedTickClearsMark | velocity/src/main/java/de/themoep/autoserver/velocity/AutoServer.java:155-158 | after a successful connection from the poll task, the next startServer for that server sends the request |
| WakeProperties.RunStartsMarks | velocity/src/main/java/de/themoep/autoserver/velocity/AutoServer.java:180-198 | over any sequence of calls in time order whose responses keep the mark, every sent request leaves a mark for its server no older than the request |
| WakeProperties.WakesAreSpaced | velocity/src/main/java/de/themoep/autoserver/velocity/AutoServer.java:180-198 | over any such sequence, two start requests for the same server name are at least 120 s apart, whichever players asked |
| WakeProperties.WaitingShowsOneTitlePerRun | velocity/src/main/java/de/themoep/autoserver/velocity/AutoServer.java:170-178 | N runs against a silent server with the player online show exactly N titles, each lasting pingInterval + 1 s (32-bit int addition), and leave the state unchanged |
| WakeProperties.TaskEndsAtFirstExit | velocity/src/main/java/de/themoep/autoserver/velocity/AutoServer.java:147-178 | every run before the last shows a title; a run that connects or finds the player gone ends the task, so at most one connection request is made; other players' registrations are unchanged |
| WakeProperties.LobbyScenario | velocity/src/main/java/de/themoep/autoserver/velocity/AutoServer.java:145-207 | worked run: request at t=0, title of 11 s at t=1, no second request for another player at t=5, connection at t=11 clears the mark and removes only the first player's task |
| EventListener.FirstFallback | velocity/src/main/java/de/themoep/autoserver/velocity/EventListener.java:60-66 | none is found exactly when no entry of the attempt order is registered and different from the original; a found server is registered and is not the original |
| EventListener.FirstFallbackIsFirst | velocity/src/main/java/de/themoep/autoserver/velocity/EventListener.java:60-66 | the chosen server is the first qualifying entry; later entries are never chosen |
| EventListener.FindFallback | velocity/src/main/java/de/themoep/autoserver/velocity/EventListener.java:60-66 | the loop with break returns FirstFallback |
| EventListener.SelectServer | velocity/src/main/java/de/themoep/autoserver/velocity/EventListener.java:41-70 | the choice is left alone exactly when there is no initial server, it has players, or the ping did not return null; otherwise the initial server becomes the first fallback, or stays the original only if there is none, and that post-reassignment server is the one started |
| EventListener.EventListener.OnSelectServer | velocity/src/main/java/de/themoep/autoserver/velocity/EventListener.java:41-70 | when SelectServer says to start, sets the event's server and calls startServer exactly once, with the post-reassignment server: one entry is appended to the plugin's call log; otherwise changes neither the event, the plugin state nor the call log |
| EventListener.EventListener.OnPlayerQuit | velocity/src/main/java/de/themoep/autoserver/velocity/EventListener.java:73-75 | a disconnect always cancels the player's task (a no-op without one) and calls no startServer |
| EventListener.EventListener.OnServerSwitch | velocity/src/main/java/de/themoep/autoserver/velocity/EventListener.java:78-84 | the task is cancelled exactly when a previous server exists and its name is in the attempt order; otherwise the plugin is unchanged |
| EventListener.StartsFallbackInsteadOfRequested | velocity/src/main/java/de/themoep/autoserver/velocity/EventListener.java:63-69 | as written: a player asking for a down "survival" is sent to "lobby", and the start request and the poll task are for lobby, not survival |
| EventListener.IntendedSelectServer | velocity/src/main/java/de/themoep/autoserver/velocity/EventListener.java:59-69 | corrected routing: the same guards and fallback choice, but the server started is the one originally requested |
| EventListener.IntendedRouteStartsRequestedServer | velocity/src/main/java/de/themoep/autoserver/velocity/EventListener.java:59-69 | with the corrected routing the start request and the new poll task are for the requested server |

## Left out

- The HTTP connection, the ping and connection futures, and the Velocity scheduler are not modelled. Their outcomes are inputs, and the caller runs the poll task by calling `Tick`.
- Concurrency is not modelled. The unsynchronised `HashMap` and the check-then-put on the cache are treated as sequential, and no atomicity is claimed. An in-flight ping or connection completing after a cancel is not modelled.
- The scheduling times of the poll task are not enforced. The task records its 1 s delay and its repeat period, but `RunTask` does not check when runs happen.
- The task is a value. Its scheduler handle and `cancel()` are represented by removing the task from the registry and returning the removed task.
- A `RegisteredServer` is compared by identity in the source. The model compares `ServerInfo` values, which is the same as long as the proxy registers one server object per name.
- Guava cache internals are not modelled: eviction sweeps and the fact that expired entries linger in the map are invisible, because only liveness is observed.
- Message text, translations, MineDown rendering and the title components are left out. Only the title's player, server name and times are kept.
- Log messages are left out, except the level `startServer` logs for its request. The logs of the connection completion handler and of `loadConfig` are not kept.
- The protocol version passed to the ping is left out.
- The fixed 10-second timeout of the ping in `onSelectServer` is left out. That handler's ping result is an input, and the timeout is not `pingTimeout`.
- `loadConfig`'s creation of `PluginConfig` and `LanguageManager` is left out. So is what `PluginConfig` reads from YAML: the model takes the two integers or the failure as input.
- `onProxyInitialization`, command registration, `AutoServerCommand`, `PluginConfig`, the stand-alone `WebServer` and its `Main` are not part of this model.

## Findings

| source | as written | input that shows it | evidently intended | confidence | as-written member | corrected member |
|---|---|---|---|---|---|---|
| velocity/src/main/java/de/themoep/autoserver/velocity/EventListener.java:63-69 | `startServer` receives `event.getInitialServer()` after it was set to the fallback, so the start request and the poll task target the fallback | a player joins toward a down "survival" (no players, ping null) and the attempt order is ["lobby"]: the start request goes to lobby's address, the task polls lobby, and survival is never started | start the server the player originally asked for and poll it while the player waits on the fallback | medium (not executed) | EventListener.StartsFallbackInsteadOfRequested | EventListener.IntendedSelectServer |
