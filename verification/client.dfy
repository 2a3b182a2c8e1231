/** `axiosLogger`: decorating an axios instance by replacing the adapter in its defaults. */
module Decorate {
  import opened Wrappers
  import opened Format
  import opened Logging

  /** An axios instance, reduced to the slot `defaults.adapter` that the decorator reads and
      overwrites. */
  class Client {
    var adapter: Option<Adapter>

    constructor (adapter: Option<Adapter>)
      ensures this.adapter == adapter
    {
      this.adapter := adapter;
    }
  }

  /** `Options`: an optional formatter and an optional logger. */
  datatype Options = Options(format: Option<Formatter>, logger: Option<Logger>)

  const MissingAdapter := "axios.defaults.adapter is missing"

  /** The wrapper installed around `inner`: the given formatter, else the default one, and
      the given logger, else `console`. */
  function Wrap(inner: Adapter, options: Options, console: Logger): (r: Adapter)
    ensures r.Logged? && r.inner == inner
    ensures Depth(r) == Depth(inner) + 1 && Unwrapped(r) == Unwrapped(inner)
    ensures options.format.Some? ==> r.format == options.format.value
    ensures options.format.None? ==> r.format == FormatDefault
    ensures options.logger.Some? ==> r.logger == options.logger.value
    ensures options.logger.None? ==> r.logger == console
  {
    Logged(inner, options.format.GetOr(FormatDefault), options.logger.GetOr(console))
  }

  /** Decorates `client`: fails with the configuration error, changing nothing, when it has
      no adapter; otherwise wraps its adapter and returns the same instance. */
  method AxiosLogger(client: Client, options: Options, console: Logger) returns (r: Result<Client, string>)
    modifies client
    ensures old(client.adapter).None? ==> r == Failure(MissingAdapter) && client.adapter == old(client.adapter)
    ensures old(client.adapter).Some? ==>
              r == Success(client) && client.adapter == Some(Wrap(old(client.adapter).value, options, console))
  {
    if client.adapter.None? {
      return Failure(MissingAdapter);
    }
    var defaultAdapter := client.adapter.value;
    var formatData := options.format.GetOr(FormatDefault);
    var logger := options.logger.GetOr(console);
    client.adapter := Some(Logged(defaultAdapter, formatData, logger));
    return Success(client);
  }

  /** Decorating one client twice with the same logger stacks a wrapper on the first: one
      call through its adapter logs twice on that logger, inner wrapper first, and still
      returns what the transport returned. */
  method DecorateTwiceScenario(send: Config -> Outcome, format: Formatter, config: Config, reading: nat -> int)
  {
    var console := new Logger();
    var client := new Client(Some(Transport(send)));
    var r1 := AxiosLogger(client, Options(Some(format), None), console);
    var r2 := AxiosLogger(client, Options(Some(format), None), console);
    assert r1 == r2 == Success(client);
    var a := client.adapter.value;
    assert a == Logged(Logged(Transport(send), format, console), format, console);
    assert Loggers(a) == {console} by {
      assert Loggers(a.inner) == {console};
    }
    var clock := new Clock(reading);
    DecoratedTwice(send, format, format, console, config, reading, 0);
    var outcome := Invoke(a, config, clock);
    assert outcome == send(config);
    assert |console.entries| == 2;
    assert console.entries[0].values == format(RecordOf(config, send(config), reading(1), reading(2)));
    assert console.entries[1].values == format(RecordOf(config, send(config), reading(0), reading(3)));
  }

  /** Decorating a client with no adapter fails at once and leaves it without one. */
  method MissingAdapterScenario(options: Options)
  {
    var console := new Logger();
    var client := new Client(None);
    var r := AxiosLogger(client, options, console);
    assert r == Failure(MissingAdapter) && client.adapter == None;
  }
}
