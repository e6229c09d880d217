/**
 * The bridge from java.util.logging levels to the five slf4j sinks
 * (VelocityPluginLogger). A level is represented by its intValue().
 */
module PluginLogger {
  import opened Wrappers

  /** intValue() of the standard java.util.logging levels. */
  const FINEST := 300
  const FINER := 400
  const FINE := 500
  const CONFIG := 700
  const INFO := 800
  const WARNING := 900
  const SEVERE := 1000

  /** The slf4j methods a message can end up in. */
  datatype Sink = Trace | Debug | Info | Warn | Error

  /** The thresholds, in ascending order, at which the chosen sink steps up. */
  const Thresholds: seq<int> := [FINER, INFO, WARNING, SEVERE]

  /** How severe a sink is: trace is 0, error is 4. */
  function Severity(s: Sink): (r: nat)
    ensures r <= 4
  {
    match s
    case Trace => 0
    case Debug => 1
    case Info => 2
    case Warn => 3
    case Error => 4
  }

  /** The sink the three-argument log call chooses for a level. */
  function SinkFor(level: int): (s: Sink)
    ensures s == Trace <==> level < FINER
    ensures s == Debug <==> FINER <= level < INFO
    ensures s == Info <==> INFO <= level < WARNING
    ensures s == Warn <==> WARNING <= level < SEVERE
    ensures s == Error <==> SEVERE <= level
  {
    if level < FINER then Trace
    else if level < INFO then Debug
    else if level < WARNING then Info
    else if level < SEVERE then Warn
    else Error
  }

  /** An independent description of the same mapping: the number of thresholds the level reaches. */
  function ThresholdsReached(level: int, ts: seq<int>): (n: nat)
    ensures n <= |ts|
  {
    if ts == [] then 0
    else (if ts[0] <= level then 1 else 0) + ThresholdsReached(level, ts[1..])
  }

  /** The chosen sink's severity is exactly the number of thresholds the level reaches. */
  lemma {:induction false} SeverityCountsThresholds(level: int)
    ensures Severity(SinkFor(level)) == ThresholdsReached(level, Thresholds)
  {
    var t := Thresholds;
    assert t[1..] == [INFO, WARNING, SEVERE];
    assert t[1..][1..] == [WARNING, SEVERE];
    assert t[1..][1..][1..] == [SEVERE];
    assert t[1..][1..][1..][1..] == [];
    var n3 := ThresholdsReached(level, [SEVERE]);
    assert n3 == if SEVERE <= level then 1 else 0;
    var n2 := ThresholdsReached(level, [WARNING, SEVERE]);
    assert n2 == (if WARNING <= level then 1 else 0) + n3;
    var n1 := ThresholdsReached(level, [INFO, WARNING, SEVERE]);
    assert n1 == (if INFO <= level then 1 else 0) + n2;
    assert ThresholdsReached(level, t) == (if FINER <= level then 1 else 0) + n1;
  }

  /** A more severe level never goes to a less severe sink. */
  lemma SinkForMonotone(a: int, b: int)
    requires a <= b
    ensures Severity(SinkFor(a)) <= Severity(SinkFor(b))
  {
  }

  /** Where the named java.util.logging levels go: FINER, FINE and CONFIG all reach debug. */
  lemma StandardLevels()
    ensures SinkFor(FINEST) == Trace
    ensures SinkFor(FINER) == Debug && SinkFor(FINE) == Debug && SinkFor(CONFIG) == Debug
    ensures SinkFor(INFO) == Info
    ensures SinkFor(WARNING) == Warn
    ensures SinkFor(SEVERE) == Error
  {
  }

  /** What the logger hands to slf4j: the sink, the message and the throwable (null is None). */
  datatype Throwable = Throwable(description: string)
  datatype LogCall = LogCall(sink: Sink, message: string, thrown: Option<Throwable>)

  /** log(Level, String, Throwable): one call to the sink chosen for the level, message and throwable passed on. */
  function Log(level: int, message: string, thrown: Option<Throwable>): (c: LogCall)
    ensures c.sink == SinkFor(level)
    ensures c.message == message && c.thrown == thrown
  {
    LogCall(SinkFor(level), message, thrown)
  }

  /** log(Level, String): the same as passing a null throwable. */
  function LogWithoutThrowable(level: int, message: string): (c: LogCall)
    ensures c == Log(level, message, None)
  {
    Log(level, message, None)
  }
}
