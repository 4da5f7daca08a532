/** Result types shared by every package, and the two validators of
    shared/helpers.go: the port range check and the nil check around the
    standard library's IP parser. */
module Shared {

  /** Go's nilable values: `None` stands for nil. */
  datatype Option<+T> = None | Some(value: T)

  /** The errors the core can report; message texts are not modelled. */
  datatype Error =
    | InvalidIP(ipString: string)
    | InvalidPort(port: int)
    | InvalidLogger
    | InvalidHandler
    | CannotAllocatePort
    | NetError(code: nat)          // an error reported by the network stack
    | ServerTerminated(cause: Error)

  /** A Go `(T, error)` pair: exactly one of the two is meaningful. */
  datatype Result<+T> = Ok(value: T) | Err(error: Error)

  /** A Go `error` return on its own: `Pass` is a nil error. */
  datatype Outcome = Pass | Fail(error: Error)

  /** A `*log.Logger`: the discarding logger both constructors install by
      default, or one supplied by the caller. Logging output is not modelled. */
  datatype LoggerRef = Discard | Writer(id: nat)

  /** net.IP: the bytes of an address. */
  type IP = seq<bv8>

  /** net.ParseIP is a foreign function: it is given to the model as a
      parameter that yields None (nil) for text it cannot parse. */
  type IPParser = string -> Option<IP>

  const MinPort: int := 1
  const MaxPort: int := 65535

  /** ValidatePort: a port is accepted exactly when it lies in 1..65535. */
  function ValidatePort(port: int): (r: Outcome)
    ensures r.Pass? <==> MinPort <= port <= MaxPort
    ensures r.Fail? ==> r.error == InvalidPort(port)
  {
    if port < 1 || port > 65535 then Fail(InvalidPort(port)) else Pass
  }

  /** The boundary cases of ValidatePort: 0, every negative port and 65536
      are rejected, 1 and 65535 accepted. (The Go error text names 66535 as
      the bound; the comparison enforces 65535.) */
  lemma ValidatePortBoundaries(negative: int)
    requires negative < 0
    ensures ValidatePort(0).Fail? && ValidatePort(negative).Fail?
    ensures ValidatePort(65536).Fail? && ValidatePort(66535).Fail?
    ensures ValidatePort(1).Pass? && ValidatePort(65535).Pass?
  {
  }

  /** ParseIP: fails exactly when the underlying parser yields nil, and
      otherwise hands back the parsed address untouched. */
  function ParseIP(parse: IPParser, ipString: string): (r: Result<IP>)
    ensures r.Err? <==> parse(ipString).None?
    ensures r.Err? ==> r.error == InvalidIP(ipString)
    ensures r.Ok? ==> Some(r.value) == parse(ipString)
  {
    match parse(ipString)
    case None => Err(InvalidIP(ipString))
    case Some(ip) => Ok(ip)
  }
}
