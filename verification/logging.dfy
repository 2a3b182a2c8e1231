/** The interceptor: the adapter that `axiosLogger` installs, which times the call to the
    adapter it replaced, passes its outcome through unchanged and makes exactly one logger
    call from its `finally` block. */
module Logging {
  import opened Wrappers
  import opened Format

  datatype Level = Info | Error

  /** One logger call: the method used and the values spread into it. */
  datatype Entry = Entry(level: Level, values: seq<Value>)

  /** A `Logger`: an object with `info` and `error`, modelled by the calls made on it. */
  class Logger {
    var entries: seq<Entry>

    constructor ()
      ensures entries == []
    {
      entries := [];
    }

    method Info(values: seq<Value>)
      modifies this
      ensures entries == old(entries) + [Entry(Level.Info, values)]
    {
      entries := entries + [Entry(Level.Info, values)];
    }

    method Error(values: seq<Value>)
      modifies this
      ensures entries == old(entries) + [Entry(Level.Error, values)]
    {
      entries := entries + [Entry(Level.Error, values)];
    }
  }

  /** The wall clock read by `new Date()`: the k-th reading is `reading(k)`, supplied by the caller. */
  class Clock {
    const reading: nat -> int
    var ticks: nat

    constructor (reading: nat -> int)
      ensures this.reading == reading && ticks == 0
    {
      this.reading := reading;
      ticks := 0;
    }

    method Now() returns (t: int)
      modifies this
      ensures t == reading(old(ticks)) && ticks == old(ticks) + 1
    {
      t := reading(ticks);
      ticks := ticks + 1;
    }
  }

  /** A formatter: `(request: RequestData) => any[]`. */
  type Formatter = RequestData -> seq<Value>

  /** What a call to an adapter produces: the value its promise resolved with (None for a
      falsy value such as `null`), or the error it rejected with. */
  datatype Outcome = Resolved(response: Option<Response>) | Rejected(error: HttpError)

  /** The function in `axios.defaults.adapter`: the transport axios was configured with,
      or a logging wrapper around an earlier adapter with the formatter and logger chosen
      when it was installed. */
  datatype Adapter =
    | Transport(send: Config -> Outcome)
    | Logged(inner: Adapter, format: Formatter, logger: Logger)

  /** The transport at the bottom of the stack: the adapter no wrapper is around. */
  function Unwrapped(a: Adapter): Config -> Outcome {
    match a
    case Transport(send) => send
    case Logged(inner, _, _) => Unwrapped(inner)
  }

  /** How many logging wrappers are stacked. */
  function Depth(a: Adapter): nat {
    match a
    case Transport(_) => 0
    case Logged(inner, _, _) => Depth(inner) + 1
  }

  /** Every logger some wrapper of the stack writes to. */
  function Loggers(a: Adapter): set<Logger> {
    match a
    case Transport(_) => {}
    case Logged(inner, _, logger) => Loggers(inner) + {logger}
  }

  /** How many wrappers of the stack write to `l`. */
  function Uses(a: Adapter, l: Logger): nat {
    match a
    case Transport(_) => 0
    case Logged(inner, _, logger) => Uses(inner, l) + (if logger == l then 1 else 0)
  }

  /** The record built in the `finally` block from the `response`/`error` variables. */
  function RecordOf(config: Config, outcome: Outcome, startTime: int, endTime: int): (r: RequestData)
    ensures r.config == config && r.startTime == startTime && r.endTime == endTime
    ensures outcome.Resolved? ==> r.response == outcome.response && r.error.None?
    ensures outcome.Rejected? ==> r.response.None? && r.error == Some(outcome.error)
    ensures r.response.Some? ==> r.error.None?
  {
    match outcome
    case Resolved(response) => RequestData(config, response, None, startTime, endTime)
    case Rejected(error) => RequestData(config, None, Some(error), startTime, endTime)
  }

  /** `response ? 'info' : 'error'`. */
  function LevelOf(request: RequestData): (l: Level)
    ensures l == Info <==> request.response.Some?
  {
    if request.response.Some? then Info else Error
  }

  /** One logger call made by one wrapper, with the record it formatted. */
  datatype Event = Event(logger: Logger, level: Level, record: RequestData, values: seq<Value>)

  /** The logger calls one call of `config` through adapter `a` makes, in the order they
      happen, when clock readings from number `t` on are used: a wrapper reads the clock,
      the wrappers inside it make their calls, then it reads the clock again and logs. */
  function Trace(a: Adapter, config: Config, reading: nat -> int, t: nat): seq<Event>
  {
    match a
    case Transport(_) => []
    case Logged(inner, format, logger) =>
      var record := RecordOf(config, Unwrapped(inner)(config), reading(t), reading(t + 1 + 2 * Depth(inner)));
      Trace(inner, config, reading, t + 1) + [Event(logger, LevelOf(record), record, format(record))]
  }

  /** The calls among `events` made on logger `l`, as that logger records them. */
  function EntriesFor(l: Logger, events: seq<Event>): seq<Entry>
  {
    if events == [] then []
    else EntriesFor(l, events[..|events| - 1])
         + (var e := events[|events| - 1]; if e.logger == l then [Entry(e.level, e.values)] else [])
  }

  lemma EntriesForAppend(l: Logger, events: seq<Event>, e: Event)
    ensures EntriesFor(l, events + [e])
            == EntriesFor(l, events) + (if e.logger == l then [Entry(e.level, e.values)] else [])
  {
    assert (events + [e])[..|events|] == events;
  }

  /** Every call in a trace goes to a logger of the stack. */
  lemma {:induction false} TraceLoggers(a: Adapter, config: Config, reading: nat -> int, t: nat)
    ensures forall i :: 0 <= i < |Trace(a, config, reading, t)| ==> Trace(a, config, reading, t)[i].logger in Loggers(a)
  {
    if a.Logged? {
      TraceLoggers(a.inner, config, reading, t + 1);
    }
  }

  lemma {:induction false} EntriesForAbsent(l: Logger, events: seq<Event>)
    requires forall i :: 0 <= i < |events| ==> events[i].logger != l
    ensures EntriesFor(l, events) == []
  {
    if events != [] {
      EntriesForAbsent(l, events[..|events| - 1]);
    }
  }

  lemma {:induction false} LoggersAllocated(a: Adapter)
    ensures forall l :: l in Loggers(a) ==> allocated(l)
  {
    if a.Logged? {
      LoggersAllocated(a.inner);
    }
  }

  /** `logger[logLevel](...content)`: one call, on the method the level names. */
  method Emit(logger: Logger, level: Level, content: seq<Value>)
    modifies logger
    ensures logger.entries == old(logger.entries) + [Entry(level, content)]
  {
    if level == Info {
      logger.Info(content);
    } else {
      logger.Error(content);
    }
  }

  /** Calling the adapter in the slot. A logging wrapper reads the clock, calls the adapter
      it replaced, reads the clock again, and calls its logger once; the outcome is the
      bottom transport's, unchanged. */
  method Invoke(a: Adapter, config: Config, clock: Clock) returns (outcome: Outcome)
    modifies Loggers(a), clock
    ensures outcome == Unwrapped(a)(config)
    ensures clock.ticks == old(clock.ticks) + 2 * Depth(a)
    ensures forall l :: l in Loggers(a) ==>
              && old(allocated(l))
              && l.entries == old(l.entries) + EntriesFor(l, Trace(a, config, clock.reading, old(clock.ticks)))
    decreases a
  {
    LoggersAllocated(a);
    match a
    case Transport(send) =>
      outcome := send(config);
    case Logged(inner, format, logger) =>
      ghost var t := clock.ticks;
      var startTime := clock.Now();
      outcome := Invoke(inner, config, clock);
      var endTime := clock.Now();
      var record := RecordOf(config, outcome, startTime, endTime);
      var level := LevelOf(record);
      var content := format(record);
      TraceStep(a, config, clock.reading, t);
      Emit(logger, level, content);
  }

  /** What the outermost wrapper adds to a trace, seen from each logger: its own call, after
      those of the wrappers inside it, and nothing on a logger no inner wrapper uses. */
  lemma TraceStep(a: Adapter, config: Config, reading: nat -> int, t: nat)
    requires a.Logged?
    ensures var record := RecordOf(config, Unwrapped(a.inner)(config), reading(t), reading(t + 1 + 2 * Depth(a.inner)));
            forall l :: EntriesFor(l, Trace(a, config, reading, t))
                        == EntriesFor(l, Trace(a.inner, config, reading, t + 1))
                           + (if a.logger == l then [Entry(LevelOf(record), a.format(record))] else [])
    ensures forall l :: l !in Loggers(a.inner) ==> EntriesFor(l, Trace(a.inner, config, reading, t + 1)) == []
  {
    var record := RecordOf(config, Unwrapped(a.inner)(config), reading(t), reading(t + 1 + 2 * Depth(a.inner)));
    var before := Trace(a.inner, config, reading, t + 1);
    var e := Event(a.logger, LevelOf(record), record, a.format(record));
    forall l ensures EntriesFor(l, before + [e]) == EntriesFor(l, before) + (if e.logger == l then [Entry(e.level, e.values)] else []) {
      EntriesForAppend(l, before, e);
    }
    TraceLoggers(a.inner, config, reading, t + 1);
    forall l | l !in Loggers(a.inner) ensures EntriesFor(l, before) == [] {
      EntriesForAbsent(l, before);
    }
  }

  /** One call through the stack makes exactly one logger call per wrapper. */
  lemma {:induction false} TraceLength(a: Adapter, config: Config, reading: nat -> int, t: nat)
    ensures |Trace(a, config, reading, t)| == Depth(a)
  {
    if a.Logged? {
      TraceLength(a.inner, config, reading, t + 1);
    }
  }

  /** Each logger receives one call per wrapper that uses it. */
  lemma {:induction false} EntriesForCount(l: Logger, a: Adapter, config: Config, reading: nat -> int, t: nat)
    ensures |EntriesFor(l, Trace(a, config, reading, t))| == Uses(a, l)
  {
    if a.Logged? {
      var record := RecordOf(config, Unwrapped(a.inner)(config), reading(t), reading(t + 1 + 2 * Depth(a.inner)));
      EntriesForAppend(l, Trace(a.inner, config, reading, t + 1), Event(a.logger, LevelOf(record), record, a.format(record)));
      EntriesForCount(l, a.inner, config, reading, t + 1);
    }
  }

  /** Every wrapper logs at `info` exactly when the transport resolved with a response, and
      formats a record holding that call's config and outcome: the response on success, the
      error on failure, never both. */
  lemma {:induction false} TraceOutcome(a: Adapter, config: Config, reading: nat -> int, t: nat)
    ensures var outcome := Unwrapped(a)(config);
            forall e :: e in Trace(a, config, reading, t) ==>
              && (e.level == Info <==> outcome.Resolved? && outcome.response.Some?)
              && e.record.config == config
              && (outcome.Resolved? ==> e.record.response == outcome.response && e.record.error.None?)
              && (outcome.Rejected? ==> e.record.response.None? && e.record.error == Some(outcome.error))
  {
    if a.Logged? {
      TraceOutcome(a.inner, config, reading, t + 1);
    }
  }

  ghost predicate Monotone(reading: nat -> int) {
    forall i: nat, j: nat :: i <= j ==> reading(i) <= reading(j)
  }

  /** With a clock that never goes back, every wrapper's record ends no earlier than it
      starts, so the elapsed time it reports is non-negative. */
  lemma {:induction false} TraceElapsed(a: Adapter, config: Config, reading: nat -> int, t: nat)
    requires Monotone(reading)
    ensures forall e :: e in Trace(a, config, reading, t) ==> e.record.startTime <= e.record.endTime
  {
    if a.Logged? {
      TraceElapsed(a.inner, config, reading, t + 1);
    }
  }

  /** A single wrapper over a transport: one call makes exactly one call on its logger, at
      the level the outcome selects, with the formatter applied to the call's record. */
  lemma DecoratedOnce(send: Config -> Outcome, format: Formatter, l: Logger,
                      config: Config, reading: nat -> int, t: nat)
    ensures var record := RecordOf(config, send(config), reading(t), reading(t + 1));
            EntriesFor(l, Trace(Logged(Transport(send), format, l), config, reading, t))
            == [Entry(LevelOf(record), format(record))]
  {
    var record := RecordOf(config, send(config), reading(t), reading(t + 1));
    EntriesForAppend(l, [], Event(l, LevelOf(record), record, format(record)));
  }

  /** Two stacked wrappers: the inner one logs first and is timed by the second and third
      clock readings, the outer one by the first and fourth; both report the same outcome;
      on a shared logger they are its two entries. */
  lemma DecoratedTwice(send: Config -> Outcome, f1: Formatter, f2: Formatter, l: Logger,
                       config: Config, reading: nat -> int, t: nat)
    ensures var inner := RecordOf(config, send(config), reading(t + 1), reading(t + 2));
            var outer := RecordOf(config, send(config), reading(t), reading(t + 3));
            var a := Logged(Logged(Transport(send), f1, l), f2, l);
            && Trace(a, config, reading, t)
               == [Event(l, LevelOf(inner), inner, f1(inner)), Event(l, LevelOf(outer), outer, f2(outer))]
            && EntriesFor(l, Trace(a, config, reading, t))
               == [Entry(LevelOf(inner), f1(inner)), Entry(LevelOf(outer), f2(outer))]
  {
    var inner := RecordOf(config, send(config), reading(t + 1), reading(t + 2));
    var outer := RecordOf(config, send(config), reading(t), reading(t + 3));
    var a := Logged(Logged(Transport(send), f1, l), f2, l);
    var e1 := Event(l, LevelOf(inner), inner, f1(inner));
    var e2 := Event(l, LevelOf(outer), outer, f2(outer));
    assert Trace(a.inner, config, reading, t + 1) == [e1];
    assert Trace(a, config, reading, t) == [e1] + [e2];
    EntriesForAppend(l, [], e1);
    EntriesForAppend(l, [e1], e2);
    assert [e1] + [e2] == [e1, e2];
  }
}
