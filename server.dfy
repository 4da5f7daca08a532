/** The tunnel server (package server): its configuration record built by
    functional options, and the sequential part of its lifecycle: binding
    the listener, choosing the scheme, stopping, and classifying why the
    serve loop exited. The mutex, the wait group and the serving goroutine
    are not modelled; each locked method is one atomic step. */
module Servers {
  import opened Shared
  import Options
  import Handlers
  import ServerPortRegistry

  /** A `*tls.Config`, opaque to the server. */
  datatype TlsConfig = TlsConfig(id: nat)

  /** The TCP address the server binds. */
  datatype Address = Address(ip: Option<IP>, port: int)

  /** A bound listener, possibly wrapped by `tls.NewListener`. */
  datatype Listener =
    | TcpListener(address: Address, socket: nat)
    | TlsListener(inner: Listener, config: TlsConfig)

  /** `net.ListenTCP` is foreign: it binds an address to a socket or fails. */
  type Binder = Address -> Result<nat>

  /** The option closures of server/option.go, one constructor each. */
  datatype ServerOption =
    | TunnelIP(ipString: string)
    | TunnelPort(port: int)
    | TunnelTlsConfig(config: Option<TlsConfig>)
    | Logger(logger: Option<LoggerRef>)
    | Handler(handler: Handlers.Handler?)

  /** `TunnelExpose()`: sugar for listening on every interface. */
  function TunnelExpose(): ServerOption
  {
    TunnelIP("0.0.0.0")
  }

  /** The package-level defaults `New` starts from; they are declared
      outside the modelled files, so they are parameters. */
  datatype Defaults = Defaults(
    tunnelIP: string, tunnelPort: int, clientIP: string,
    clientPortLower: int, clientPortUpper: int)

  /** The configurable fields of a server. `handler` is set by the `Handler`
      option although the Go struct declares no such field. */
  datatype Settings = Settings(
    logger: LoggerRef, tunnelIP: Option<IP>, tunnelPort: int,
    tunnelTlsConfig: Option<TlsConfig>, clientIP: Option<IP>, handler: Handlers.Handler?)

  /** The struct literal at the start of `New`: a discarding logger, the
      parsed default IPs (nil if they do not parse; they are not checked),
      the default port, no TLS and no handler. */
  function Default(parse: IPParser, d: Defaults): Settings
  {
    Settings(Discard, parse(d.tunnelIP), d.tunnelPort, None, parse(d.clientIP), null)
  }

  /** What one option closure does to the server's settings. */
  function ApplyOption(parse: IPParser, s: Settings, option: ServerOption): Result<Settings>
  {
    match option
    case TunnelIP(ipString) =>
      (match ParseIP(parse, ipString)
       case Err(e) => Err(e)
       case Ok(ip) => Ok(s.(tunnelIP := Some(ip))))
    case TunnelPort(port) =>
      if ValidatePort(port).Fail? then Err(ValidatePort(port).error)
      else Ok(s.(tunnelPort := port))
    case TunnelTlsConfig(config) =>
      Ok(s.(tunnelTlsConfig := config))
    case Logger(logger) =>
      if logger.None? then Err(InvalidLogger) else Ok(s.(logger := logger.value))
    case Handler(h) =>
      if h == null then Err(InvalidHandler) else Ok(s.(handler := h))
  }

  function Applier(parse: IPParser): (Settings, ServerOption) -> Result<Settings>
  {
    (s, option) => ApplyOption(parse, s, option)
  }

  /** The outcome of `New(options...)`: the defaults with the options folded in. */
  function Build(parse: IPParser, d: Defaults, options: seq<ServerOption>): Result<Settings>
  {
    Options.Fold(Applier(parse), Default(parse, d), options)
  }

  /** Each option validates its argument and then sets exactly one field:
      `TunnelIP(s)` succeeds iff `s` parses, `TunnelPort(p)` iff `p` is a
      valid port, `TunnelTlsConfig` never fails (nil clears the setting),
      `Logger` and `Handler` refuse nil. A failing option reports its own
      error and leaves the server as it was. */
  lemma ApplyOptionContract(parse: IPParser, s: Settings, option: ServerOption)
    ensures var r := ApplyOption(parse, s, option);
      match option
      case TunnelIP(ipString) =>
        && (r.Ok? <==> parse(ipString).Some?)
        && (r.Ok? ==> r.value == s.(tunnelIP := parse(ipString)))
        && (r.Err? ==> r.error == InvalidIP(ipString))
      case TunnelPort(port) =>
        && (r.Ok? <==> MinPort <= port <= MaxPort)
        && (r.Ok? ==> r.value == s.(tunnelPort := port))
        && (r.Err? ==> r.error == InvalidPort(port))
      case TunnelTlsConfig(config) =>
        r == Ok(s.(tunnelTlsConfig := config))
      case Logger(logger) =>
        && (r.Ok? <==> logger.Some?)
        && (r.Ok? ==> r.value == s.(logger := logger.value))
        && (r.Err? ==> r.error == InvalidLogger)
      case Handler(h) =>
        && (r.Ok? <==> h != null)
        && (r.Ok? ==> r.value == s.(handler := h))
        && (r.Err? ==> r.error == InvalidHandler)
  {
  }

  /** `TunnelExpose()` behaves exactly as `TunnelIP("0.0.0.0")`. */
  lemma TunnelExposeIsTunnelIP(parse: IPParser, s: Settings)
    ensures ApplyOption(parse, s, TunnelExpose()) == ApplyOption(parse, s, TunnelIP("0.0.0.0"))
  {
  }

  /** Two options of the same kind set the same field. */
  predicate SameField(a: ServerOption, b: ServerOption)
  {
    || (a.TunnelIP? && b.TunnelIP?)
    || (a.TunnelPort? && b.TunnelPort?)
    || (a.TunnelTlsConfig? && b.TunnelTlsConfig?)
    || (a.Logger? && b.Logger?)
    || (a.Handler? && b.Handler?)
  }

  /** A later option on the same field overrides an earlier one: applied in
      `New` right after a successful earlier option, it leaves the server as
      if the earlier one had not been given. */
  lemma SameFieldOverrides(parse: IPParser, earlier: ServerOption, later: ServerOption, before: seq<ServerOption>, after: seq<ServerOption>, d: Defaults)
    requires SameField(earlier, later)
    requires Build(parse, d, before + [earlier]).Ok?
    ensures Build(parse, d, before + [earlier, later] + after) == Build(parse, d, before + [later] + after)
  {
    forall s | ApplyOption(parse, s, earlier).Ok?
      ensures ApplyOption(parse, ApplyOption(parse, s, earlier).value, later) == ApplyOption(parse, s, later)
    {
    }
    Options.FoldSplit(Applier(parse), Default(parse, d), before, [earlier]);
    Options.FoldOverride(Applier(parse), Default(parse, d), before, earlier, later, after);
  }

  /** The scheme the server announces: "https" exactly when a TLS
      configuration is set, "http" otherwise. */
  function Scheme(tunnelTlsConfig: Option<TlsConfig>): (scheme: string)
    ensures scheme == "https" <==> tunnelTlsConfig.Some?
    ensures scheme == "http" <==> tunnelTlsConfig.None?
  {
    if tunnelTlsConfig.Some? then "https" else "http"
  }

  /** Why the serve loop ended, given the error `Serve` returned: with the
      listener already cleared it is a deliberate shutdown (no error),
      otherwise the error is reported, wrapped. */
  function ServeExit(listener: Option<Listener>, err: Error): (r: Outcome)
    ensures r.Pass? <==> listener.None?
    ensures r.Fail? ==> r.error == ServerTerminated(err)
  {
    if listener.Some? then Fail(ServerTerminated(err)) else Pass
  }

  /** The server object (server/server.go): options set its fields in
      place, `Start` and `Stop` set and clear its listener. */
  class Server {
    var logger: LoggerRef
    var tunnelIP: Option<IP>
    var tunnelPort: int
    var tunnelTlsConfig: Option<TlsConfig>
    var clientIP: Option<IP>
    var portRegistry: ServerPortRegistry.PortRegistry
    var listener: Option<Listener>
    var handler: Handlers.Handler?
    /** The listeners closed so far, oldest first (the effect of `Close`). */
    ghost var closed: seq<Listener>

    /** The server's current settings. */
    function Value(): Settings
      reads this
    {
      Settings(logger, tunnelIP, tunnelPort, tunnelTlsConfig, clientIP, handler)
    }

    /** The struct literal at the start of `New`: no listener yet. */
    constructor (parse: IPParser, d: Defaults)
      ensures Value() == Default(parse, d)
      ensures listener == None && closed == []
      ensures fresh(portRegistry) && portRegistry.Valid()
      ensures portRegistry.Value() == ServerPortRegistry.Initial(d.clientPortLower, d.clientPortUpper)
    {
      logger := Discard;
      tunnelIP := parse(d.tunnelIP);
      tunnelPort := d.tunnelPort;
      tunnelTlsConfig := None;
      clientIP := parse(d.clientIP);
      portRegistry := new ServerPortRegistry.PortRegistry(d.clientPortLower, d.clientPortUpper);
      listener := None;
      handler := null;
      closed := [];
    }

    /** Run one option closure on this server; only its settings can change. */
    method Apply(parse: IPParser, option: ServerOption) returns (err: Outcome)
      modifies this
      ensures match ApplyOption(parse, old(Value()), option)
        case Ok(s) => err == Pass && Value() == s
        case Err(e) => err == Fail(e) && unchanged(this)
      ensures portRegistry == old(portRegistry) && listener == old(listener) && closed == old(closed)
    {
      match option
      case TunnelIP(ipString) =>
        var ip := ParseIP(parse, ipString);
        if ip.Err? {
          return Fail(ip.error);
        }
        tunnelIP := Some(ip.value);
        return Pass;
      case TunnelPort(port) =>
        var e := ValidatePort(port);
        if e.Fail? {
          return e;
        }
        tunnelPort := port;
        return Pass;
      case TunnelTlsConfig(config) =>
        if config.None? {
          tunnelTlsConfig := None;
          return Pass;
        }
        tunnelTlsConfig := config;
        return Pass;
      case Logger(l) =>
        if l.None? {
          return Fail(InvalidLogger);
        }
        logger := l.value;
        return Pass;
      case Handler(h) =>
        if h == null {
          return Fail(InvalidHandler);
        }
        handler := h;
        return Pass;
    }

    /** `listen`: bind the configured address; on failure report the error
        and change nothing, on success record the listener, wrapped in TLS
        exactly when a TLS configuration is set. */
    method Listen(listenTCP: Binder) returns (err: Outcome)
      modifies this
      ensures var address := Address(tunnelIP, tunnelPort);
        match listenTCP(address)
        case Err(e) => err == Fail(e) && unchanged(this)
        case Ok(socket) =>
          && err == Pass
          && listener.Some?
          && (listener.value.TlsListener? <==> tunnelTlsConfig.Some?)
          && listener.value == (if tunnelTlsConfig.Some? then TlsListener(TcpListener(address, socket), tunnelTlsConfig.value)
                                else TcpListener(address, socket))
      ensures Value() == old(Value()) && portRegistry == old(portRegistry) && closed == old(closed)
    {
      var address := Address(tunnelIP, tunnelPort);
      var bound := listenTCP(address);
      if bound.Err? {
        return Fail(bound.error);
      }
      var l := TcpListener(address, bound.value);
      if tunnelTlsConfig.Some? {
        l := TlsListener(l, tunnelTlsConfig.value);
      }
      listener := Some(l);
      return Pass;
    }

    /** `Start`: bind, then launch the serve loop. A bind failure is
        returned at once and the loop is not launched. Otherwise the result
        is what the loop reported before the start-up window closed:
        `served` is the error `Serve` returned within that window, or None
        when it was still serving. */
    method Start(listenTCP: Binder, served: Option<Error>) returns (err: Outcome)
      modifies this
      ensures var bound := listenTCP(Address(old(tunnelIP), old(tunnelPort)));
        && (bound.Err? ==> err == Fail(bound.error) && unchanged(this))
        && (bound.Ok? ==>
              && listener.Some?
              && (listener.value.TlsListener? <==> tunnelTlsConfig.Some?)
              && listener.value == (if tunnelTlsConfig.Some? then TlsListener(TcpListener(Address(tunnelIP, tunnelPort), bound.value), tunnelTlsConfig.value)
                                    else TcpListener(Address(tunnelIP, tunnelPort), bound.value))
              && err == if served.Some? then ServeExit(listener, served.value) else Pass)
      ensures Value() == old(Value()) && portRegistry == old(portRegistry) && closed == old(closed)
    {
      err := Listen(listenTCP);
      if err.Fail? {
        return;
      }
      if served.Some? {
        return ServeExit(listener, served.value);
      }
      return Pass;
    }

    /** `Stop`: close a present listener exactly once and clear it; with no
        listener nothing happens, so a second `Stop` is a no-op. Afterwards
        any exit of the serve loop counts as a deliberate shutdown. */
    method Stop()
      modifies this
      ensures listener == None
      ensures old(listener).Some? ==> closed == old(closed) + [old(listener).value]
      ensures old(listener).None? ==> unchanged(this)
      ensures Value() == old(Value()) && portRegistry == old(portRegistry)
      ensures forall e :: ServeExit(listener, e) == Pass
    {
      if listener.Some? {
        closed := closed + [listener.value];
        listener := None;
      }
    }
  }

  /** `New(options...)`: start from the defaults and apply the options in
      order; the first failing option aborts with its error and no server.
      A new server has no listener and a fresh channel-backed registry over
      the default client range. */
  method New(parse: IPParser, d: Defaults, options: seq<ServerOption>) returns (r: Result<Server>)
    ensures match Build(parse, d, options)
      case Ok(s) =>
        && r.Ok? && fresh(r.value) && r.value.Value() == s
        && r.value.listener == None && r.value.closed == []
        && fresh(r.value.portRegistry) && r.value.portRegistry.Valid()
        && r.value.portRegistry.Value() == ServerPortRegistry.Initial(d.clientPortLower, d.clientPortUpper)
      case Err(e) => r == Err(e)
  {
    var srv := new Server(parse, d);
    for i := 0 to |options|
      invariant fresh(srv) && fresh(srv.portRegistry) && srv.portRegistry.Valid()
      invariant srv.portRegistry.Value() == ServerPortRegistry.Initial(d.clientPortLower, d.clientPortUpper)
      invariant srv.listener == None && srv.closed == []
      invariant Build(parse, d, options) == Options.Fold(Applier(parse), srv.Value(), options[i..])
    {
      assert options[i..][0] == options[i] && options[i..][1..] == options[i + 1..];
      var err := srv.Apply(parse, options[i]);
      if err.Fail? {
        return Err(err.error);
      }
    }
    return Ok(srv);
  }

  /** `MustInstantiate(options...)`: `New`'s server. It panics exactly when
      `New` fails, so callers must pass options with which `New` succeeds. */
  method MustInstantiate(parse: IPParser, d: Defaults, options: seq<ServerOption>) returns (srv: Server)
    requires Build(parse, d, options).Ok?
    ensures fresh(srv) && srv.Value() == Build(parse, d, options).value
    ensures srv.listener == None && srv.closed == []
    ensures fresh(srv.portRegistry) && srv.portRegistry.Valid()
    ensures srv.portRegistry.Value() == ServerPortRegistry.Initial(d.clientPortLower, d.clientPortUpper)
  {
    var r := New(parse, d, options);
    srv := r.value;
  }
}
