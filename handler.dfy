/** The HTTP handler of the server (package handler): a record of the
    client-facing IP, a port registry and a logger, built by applying
    functional options to defaults. */
module Handlers {
  import opened Shared
  import Options
  import PortReg

  /** The option closures of server/handler/option.go, one constructor each. */
  datatype HandlerOption =
    | ClientIP(ipString: string)
    | ClientPortRange(portLower: int, portUpper: int)
    | Logger(logger: Option<LoggerRef>)

  /** `ClientExpose()`: sugar for listening on every interface. */
  function ClientExpose(): HandlerOption
  {
    ClientIP("0.0.0.0")
  }

  /** The package-level defaults `New` starts from; they are declared
      outside the modelled files, so they are parameters. */
  datatype Defaults = Defaults(clientIP: string, clientPortLower: int, clientPortUpper: int)

  /** The value of a handler: its fields, with the registry by value. */
  datatype Settings = Settings(clientIP: Option<IP>, registry: PortReg.Registry, logger: LoggerRef)

  /** The handler `New` starts from: the parsed default IP (nil if it does
      not parse; it is not checked), a registry over the default range and a
      discarding logger. */
  function Default(parse: IPParser, d: Defaults): Settings
  {
    Settings(parse(d.clientIP), PortReg.Initial(d.clientPortLower, d.clientPortUpper), Discard)
  }

  /** What one option closure does to the handler's value. */
  function ApplyOption(parse: IPParser, s: Settings, option: HandlerOption): Result<Settings>
  {
    match option
    case ClientIP(ipString) =>
      (match ParseIP(parse, ipString)
       case Err(e) => Err(e)
       case Ok(ip) => Ok(s.(clientIP := Some(ip))))
    case ClientPortRange(lower, upper) =>
      if ValidatePort(lower).Fail? then Err(ValidatePort(lower).error)
      else if ValidatePort(upper).Fail? then Err(ValidatePort(upper).error)
      else Ok(s.(registry := PortReg.Initial(lower, upper)))
    case Logger(logger) =>
      if logger.None? then Err(InvalidLogger) else Ok(s.(logger := logger.value))
  }

  function Applier(parse: IPParser): (Settings, HandlerOption) -> Result<Settings>
  {
    (s, option) => ApplyOption(parse, s, option)
  }

  /** The outcome of `New(options...)`: the defaults with the options folded in. */
  function Build(parse: IPParser, d: Defaults, options: seq<HandlerOption>): Result<Settings>
  {
    Options.Fold(Applier(parse), Default(parse, d), options)
  }

  /** Each option validates its argument and then sets exactly one field:
      `ClientIP(s)` succeeds iff `s` parses, `ClientPortRange(lo, hi)`
      checks `lo` before `hi` and installs a fresh registry over the range,
      `Logger(l)` refuses nil. A failing option reports its own error and
      leaves the handler as it was. */
  lemma ApplyOptionContract(parse: IPParser, s: Settings, option: HandlerOption)
    ensures var r := ApplyOption(parse, s, option);
      match option
      case ClientIP(ipString) =>
        && (r.Ok? <==> parse(ipString).Some?)
        && (r.Ok? ==> r.value == s.(clientIP := parse(ipString)))
        && (r.Err? ==> r.error == InvalidIP(ipString))
      case ClientPortRange(lower, upper) =>
        && (!(MinPort <= lower <= MaxPort) ==> r == Err(InvalidPort(lower)))
        && (MinPort <= lower <= MaxPort && !(MinPort <= upper <= MaxPort) ==> r == Err(InvalidPort(upper)))
        && (MinPort <= lower <= MaxPort && MinPort <= upper <= MaxPort ==>
              r == Ok(s.(registry := PortReg.Initial(lower, upper))))
      case Logger(logger) =>
        && (r.Ok? <==> logger.Some?)
        && (r.Ok? ==> r.value == s.(logger := logger.value))
        && (r.Err? ==> r.error == InvalidLogger)
  {
  }

  /** `ClientExpose()` behaves exactly as `ClientIP("0.0.0.0")`. */
  lemma ClientExposeIsClientIP(parse: IPParser, s: Settings)
    ensures ApplyOption(parse, s, ClientExpose()) == ApplyOption(parse, s, ClientIP("0.0.0.0"))
  {
  }

  /** `ClientPortRange` accepts its bounds in either order: the registry's
      constructor swaps them. */
  lemma ClientPortRangeEitherOrder(parse: IPParser, s: Settings, lower: int, upper: int)
    requires ValidatePort(lower).Pass? && ValidatePort(upper).Pass?
    ensures ApplyOption(parse, s, ClientPortRange(lower, upper)) == ApplyOption(parse, s, ClientPortRange(upper, lower))
    ensures ApplyOption(parse, s, ClientPortRange(lower, upper)).Ok?
  {
    PortReg.InitialShape(lower, upper);
  }

  /** Two options of the same kind set the same field. */
  predicate SameField(a: HandlerOption, b: HandlerOption)
  {
    || (a.ClientIP? && b.ClientIP?)
    || (a.ClientPortRange? && b.ClientPortRange?)
    || (a.Logger? && b.Logger?)
  }

  /** A later option on the same field overrides an earlier one: applied in
      `New` right after a successful earlier option, it leaves the handler
      as if the earlier one had not been given. */
  lemma SameFieldOverrides(parse: IPParser, earlier: HandlerOption, later: HandlerOption, before: seq<HandlerOption>, after: seq<HandlerOption>, d: Defaults)
    requires SameField(earlier, later)
    requires Build(parse, d, before + [earlier]).Ok?
    ensures Build(parse, d, before + [earlier, later] + after) == Build(parse, d, before + [later] + after)
  {
    forall s | ApplyOption(parse, s, earlier).Ok?
      ensures ApplyOption(parse, ApplyOption(parse, s, earlier).value, later) == ApplyOption(parse, s, later)
    {
    }
    Options.FoldSplit(Applier(parse), Default(parse, d), before, [earlier]);
    Options.FoldOverride(Applier(parse), Default(parse, d), before, earlier, later, after);
  }

  /** The handler object (server/handler/handler.go): its fields are set in
      place by the option closures. */
  class Handler {
    var clientIP: Option<IP>
    var portRegistry: PortReg.PortRegistry
    var logger: LoggerRef

    /** The handler's current value. */
    function Value(): Settings
      reads this, portRegistry
    {
      Settings(clientIP, portRegistry.Value(), logger)
    }

    /** The struct literal at the start of `New`. */
    constructor (parse: IPParser, d: Defaults)
      ensures Value() == Default(parse, d)
      ensures fresh(portRegistry) && portRegistry.Valid()
    {
      clientIP := parse(d.clientIP);
      portRegistry := new PortReg.PortRegistry(d.clientPortLower, d.clientPortUpper);
      logger := Discard;
    }

    /** Run one option closure on this handler. */
    method Apply(parse: IPParser, option: HandlerOption) returns (err: Outcome)
      modifies this
      ensures match ApplyOption(parse, old(Value()), option)
        case Ok(s) => err == Pass && Value() == s
        case Err(e) => err == Fail(e) && unchanged(this)
      ensures portRegistry == old(portRegistry) || (fresh(portRegistry) && portRegistry.Valid())
    {
      match option
      case ClientIP(ipString) =>
        var ip := ParseIP(parse, ipString);
        if ip.Err? {
          return Fail(ip.error);
        }
        clientIP := Some(ip.value);
        return Pass;
      case ClientPortRange(lower, upper) =>
        var e := ValidatePort(lower);
        if e.Fail? {
          return e;
        }
        e := ValidatePort(upper);
        if e.Fail? {
          return e;
        }
        portRegistry := new PortReg.PortRegistry(lower, upper);
        return Pass;
      case Logger(l) =>
        if l.None? {
          return Fail(InvalidLogger);
        }
        logger := l.value;
        return Pass;
    }
  }

  /** `New(options...)`: start from the defaults and apply the options in
      order; the first failing option aborts with its error and no handler.
      On success the handler and its registry are new objects. */
  method New(parse: IPParser, d: Defaults, options: seq<HandlerOption>) returns (r: Result<Handler>)
    ensures match Build(parse, d, options)
      case Ok(s) =>
        && r.Ok? && fresh(r.value) && r.value.Value() == s
        && fresh(r.value.portRegistry) && r.value.portRegistry.Valid()
      case Err(e) => r == Err(e)
  {
    var h := new Handler(parse, d);
    for i := 0 to |options|
      invariant fresh(h) && fresh(h.portRegistry) && h.portRegistry.Valid()
      invariant Build(parse, d, options) == Options.Fold(Applier(parse), h.Value(), options[i..])
    {
      assert options[i..][0] == options[i] && options[i..][1..] == options[i + 1..];
      var err := h.Apply(parse, options[i]);
      if err.Fail? {
        return Err(err.error);
      }
    }
    return Ok(h);
  }

  /** `MustInstantiate(options...)`: `New`'s handler. It panics exactly when
      `New` fails, so callers must pass options with which `New` succeeds. */
  method MustInstantiate(parse: IPParser, d: Defaults, options: seq<HandlerOption>) returns (h: Handler)
    requires Build(parse, d, options).Ok?
    ensures fresh(h) && h.Value() == Build(parse, d, options).value
    ensures fresh(h.portRegistry) && h.portRegistry.Valid()
  {
    var r := New(parse, d, options);
    h := r.value;
  }
}
