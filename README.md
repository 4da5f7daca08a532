# httptun server core: port pools and configuration, modelled in Dafny

This project models the sequential core of the httptun tunnel server (Go):

- **The handler's port registry** (`server/handler/portreg`): a FIFO slice of
  free ports plus an `allocated` map. `Allocate` pops the head and marks it
  allocated; the value `0` means "no port", both for an empty queue and for
  a popped zero. `Release` re-queues a port only if the map marks it
  allocated. `New` makes its slice with `make([]int, num)` and then appends
  min..max. A fresh registry therefore queues `num` zeros ahead of the real
  ports. The first `num` calls to `Allocate` fail and mark port 0 as
  allocated. The model keeps this behaviour and proves it
  (`PortReg.InitialAllocations`). Over the nonzero ports it also proves an
  invariant: every port of the range is either queued or allocated, never
  both, and no port is queued twice. `New` establishes it, and `Allocate`
  and `Release` preserve it.
- **The server's channel-backed port registry** (`server/port_registry.go`):
  a buffered channel pre-filled with min..max, modelled as its contents plus
  its fixed capacity. `allocate` receives the oldest port. A receive on an
  empty channel blocks forever, so non-emptiness is a precondition.
  `allocate` never writes the map, so the map stays empty in every
  reachable state and `release` never changes anything. Both facts are
  proved.
- **Validators** (`shared/helpers.go`): the port range check and the nil
  check around the standard library's IP parser. The parser is a
  parameter of the model.
- **Functional options**: the validating setters of the handler and of the
  server. The loops in `handler.New` and `server.New` apply them in order
  and stop at the first error. A generic `Options.Fold` specifies both
  loops. Lemmas about it cover three properties: options apply in order, the
  first failure aborts, and a later option on the same field overrides an
  earlier one.
- **The sequential slice of the server lifecycle** (`server/server.go`):
  binding the listener (TLS-wrapped only when configured), `Start`, `Stop`
  (closes a present listener once, then is a no-op), the choice of scheme,
  and how the exit of the serve loop is classified. A cleared listener means
  a deliberate shutdown. Otherwise the error is wrapped and reported.

Each Go object whose fields change in place is a Dafny `class`. Each class
has a function `Value()` that gives its abstract value. Each method's
`ensures` ties the new value to a pure function of the old one (for example
`PortReg.AllocateStep`, `Handlers.ApplyOption`, `Options.Fold`). The
properties are proved as lemmas about those functions.

Some of the code's behaviour is surprising, and the model keeps it as
written:

- A port pool would be expected to keep its free and allocated ports
  covering the range. The code also queues `num` zeros and reports them
  as allocation failures. It uses `0` as "no port", so a range that
  contains 0 reports an error when 0 is popped, and `allocated[0]` becomes
  true. The invariant is therefore stated over the nonzero ports.
- The two registries behave differently when no port is free. The
  handler's `portreg` registry fails at once with an allocation error
  (`PortReg.AllocateBehaviour`). The server's channel-backed registry
  blocks on the empty channel, which the model turns into a precondition
  of `ServerPortRegistry.PortRegistry.Allocate`.
- `server/option.go:95` assigns `s.handler`, but the `server` struct
  (`server/server.go:65-83`) declares no such field. The model adds a
  `handler` field to `Servers.Server`. It starts as `null` because `New`
  does not set it.
- The error text of `ValidatePort` names 66535 as the upper bound. The
  comparison enforces 65535, and the model follows the comparison.

## Model

| member | source | states |
|---|---|---|
| `Shared.ValidatePort` | shared/helpers.go:24-31 | a port is accepted iff 1 <= port <= 65535; a rejection carries the offending port |
| `Shared.ValidatePortBoundaries` | shared/helpers.go:26-27 | 0, every negative port, 65536 and 66535 are rejected; 1 and 65535 are accepted |
| `Shared.ParseIP` | shared/helpers.go:12-20 | fails iff the underlying parser yields nil; on success returns the parsed address unchanged |
| `Ranges.Normalize` | server/handler/portreg/port_registry.go:22-24 | the bounds come out ordered, and are the arguments as given or swapped |
| `Ranges.NormalizeSymmetric` | server/port_registry.go:15-17 | the order of the two bounds does not matter |
| `Ranges.Count` | server/handler/portreg/port_registry.go:26 | `num = max - min + 1` of the normalised range, at least 1 |
| `Ranges.Zeros` | server/handler/portreg/port_registry.go:29 | `make([]int, n)`: n entries, all zero |
| `Ranges.Ascending` | server/handler/portreg/port_registry.go:31-33 | the counting loop's output: entry i is lo + i, hi - lo + 1 entries (none if lo > hi) |
| `Ranges.AscendingIsSorted` | server/port_registry.go:24-26 | the filled ports are strictly increasing (so distinct), and a port occurs iff it lies in lo..hi |
| `Ranges.AscendingSnoc` | server/port_registry.go:24-26 | appending hi + 1 to the run lo..hi gives the run lo..hi + 1 (the loop's step) |
| `PortReg.Initial` | server/handler/portreg/port_registry.go:20-40 | `New(min, max)`: swap the bounds if needed, then an empty map and a queue of `num` zeros followed by min..max; its shape is proved in `PortReg.InitialShape` |
| `PortReg.AllocateStep` | server/handler/portreg/port_registry.go:42-60 | one `Allocate` call: the new state and the reported port; its behaviour is proved in `PortReg.AllocateBehaviour` and `PortReg.AllocateFresh` |
| `PortReg.ReleaseStep` | server/handler/portreg/port_registry.go:62-70 | one `Release(port)` call; its behaviour is proved in `PortReg.ReleaseBehaviour` |
| `PortReg.InitialShape` | server/handler/portreg/port_registry.go:20-33 | after `New`, nothing is allocated and the queue is `num` zeros followed by min..max ascending; swapping the arguments gives the same registry |
| `PortReg.AllocateBehaviour` | server/handler/portreg/port_registry.go:48-59 | on a non-empty queue, `Allocate` removes exactly the head, marks it allocated and keeps the rest in order; it errs iff the queue was empty or the head was 0, else returns the head; on an empty queue nothing changes |
| `PortReg.ReleaseBehaviour` | server/handler/portreg/port_registry.go:65-68 | releasing an allocated port unmarks it and appends it to the tail; any other port leaves the registry unchanged |
| `PortReg.InitialInv` | server/handler/portreg/port_registry.go:26-33 | a fresh registry satisfies the invariant: each nonzero port of the range is queued or allocated but not both, and no nonzero port is queued twice |
| `PortReg.AllocateInv` | server/handler/portreg/port_registry.go:48-51 | `Allocate` preserves the invariant |
| `PortReg.ReleaseInv` | server/handler/portreg/port_registry.go:65-68 | `Release` of any port preserves the invariant |
| `PortReg.AllocateFresh` | server/handler/portreg/port_registry.go:49-50 | a successful `Allocate` returns a port of the range that was not marked allocated; afterwards it is marked and no longer queued |
| `PortReg.AllocateTimesPops` | server/handler/portreg/port_registry.go:42-60 | k allocations pop the first k queue entries in order, report each (0 as an error) and mark each allocated |
| `PortReg.InitialAllocations` | server/handler/portreg/port_registry.go:29-33 | from a fresh registry the first `num` allocations fail and leave port 0 allocated; the next ones return min, min + 1, ... in order, and after `num` calls the queue is exactly min..max |
| `PortReg.PortRegistry.constructor` | server/handler/portreg/port_registry.go:20-40 | the appending loop builds exactly the initial registry, and it satisfies the invariant |
| `PortReg.PortRegistry.Allocate` | server/handler/portreg/port_registry.go:42-60 | the returned port and the new state are those of the pure `Allocate` step; the invariant is kept |
| `PortReg.PortRegistry.Release` | server/handler/portreg/port_registry.go:62-70 | the new state is that of the pure `Release` step; the invariant is kept |
| `ServerPortRegistry.Initial` | server/port_registry.go:13-33 | `newPortRegistry(min, max)`: an empty map and a channel of capacity `num` holding min..max; its shape is proved in `ServerPortRegistry.InitialShape` |
| `ServerPortRegistry.AllocateStep` | server/port_registry.go:35-38 | one `allocate` call: receive the oldest buffered port (the channel must be non-empty); proved in `ServerPortRegistry.AllocateInv` |
| `ServerPortRegistry.ReleaseStep` | server/port_registry.go:40-48 | one `release(port)` call; in reachable states it is a no-op (`ServerPortRegistry.ReleaseNoOp`) |
| `ServerPortRegistry.InitialShape` | server/port_registry.go:13-33 | after construction the channel holds exactly min..max ascending, its capacity is max - min + 1, and nothing is allocated; swapped arguments give the same registry |
| `ServerPortRegistry.InitialInv` | server/port_registry.go:19-26 | a fresh registry satisfies the reachable-state invariant: an empty map, and a channel holding the top of the range in ascending order |
| `ServerPortRegistry.AllocateInv` | server/port_registry.go:35-38 | `allocate` keeps the invariant, never touches the map, and returns the smallest buffered port, which lies in the range |
| `ServerPortRegistry.ReleaseNoOp` | server/port_registry.go:40-48 | in every reachable state the guard `allocated[port]` is false and `release` changes nothing |
| `ServerPortRegistry.AllocateTimesTakesOldest` | server/port_registry.go:35-38 | k allocations receive the k oldest buffered ports in order and leave the rest buffered; the map is untouched |
| `ServerPortRegistry.InitialAllocations` | server/port_registry.go:19-38 | the first k <= num allocations from a fresh registry return k distinct ports of the range, ascending from min |
| `ServerPortRegistry.PortRegistry.constructor` | server/port_registry.go:13-33 | the filling loop builds exactly the initial registry, and it satisfies the invariant |
| `ServerPortRegistry.PortRegistry.Allocate` | server/port_registry.go:35-38 | on a non-empty channel, returns the oldest entry and removes it; the invariant is kept |
| `ServerPortRegistry.PortRegistry.Release` | server/port_registry.go:40-48 | re-queues only an allocated port; from any valid state the object is left unchanged |
| `Options.Fold` | server/handler/handler.go:26-30 | the option loop of both `New` functions (also server/server.go:45-49): options apply in order and the first error aborts; proved in `Options.FoldSplit` and `Options.FoldStopsAt` |
| `Options.FoldSplit` | server/handler/handler.go:26-30 | applying a concatenation of options applies the first part, then the second part from where the first stopped (or the first part's error) |
| `Options.FoldStopsAt` | server/handler/handler.go:26-30 | options apply in the given order; a failing option ends the run with its own error, and later options are not applied |
| `Options.FoldOverride` | server/server.go:45-49 | if an option that follows a successful earlier one on the same field makes the earlier one irrelevant, the run folds as if the earlier one were absent |
| `Handlers.ClientExpose` | server/handler/option.go:28-32 | the option `ClientIP("0.0.0.0")`; proved equivalent in `Handlers.ClientExposeIsClientIP` |
| `Handlers.Default` | server/handler/handler.go:20-24 | the handler literal `New` starts from: the parsed default client IP, a registry over the default range, a discarding logger |
| `Handlers.ApplyOption` | server/handler/option.go:13-63 | what one option closure does to the handler; stated in `Handlers.ApplyOptionContract` |
| `Handlers.Build` | server/handler/handler.go:18-33 | the outcome of `New`: the options folded over the defaults |
| `Handlers.ApplyOptionContract` | server/handler/option.go:13-63 | `ClientIP(s)` sets `clientIP` iff `s` parses; `ClientPortRange(lo, hi)` rejects an invalid `lo` before looking at `hi`, then installs `portreg.New(lo, hi)`; `Logger(nil)` fails and a non-nil logger is stored; every failure reports its own error and changes nothing |
| `Handlers.ClientExposeIsClientIP` | server/handler/option.go:28-32 | `ClientExpose()` behaves exactly as `ClientIP("0.0.0.0")` |
| `Handlers.ClientPortRangeEitherOrder` | server/handler/option.go:46 | with both bounds valid, `ClientPortRange` succeeds, and `lo > hi` gives the same registry as the swapped bounds |
| `Handlers.SameFieldOverrides` | server/handler/handler.go:26-30 | in `New`, a later option on the same field overrides an earlier successful one |
| `Handlers.Handler.constructor` | server/handler/handler.go:20-24 | the default handler: the parsed default client IP, a fresh registry over the default range, a discarding logger |
| `Handlers.Handler.Apply` | server/handler/option.go:13-63 | running an option closure gives the pure option's result; on failure the handler is unchanged |
| `Handlers.New` | server/handler/handler.go:18-33 | succeeds iff folding the options over the defaults succeeds; it then returns a new handler with exactly that value and a new registry satisfying its invariant, and otherwise it returns the first failing option's error |
| `Handlers.MustInstantiate` | server/handler/handler.go:35-43 | when `New` would succeed, returns `New`'s handler, with its settings and a new registry satisfying its invariant (a panic otherwise is a precondition) |
| `Servers.TunnelExpose` | server/option.go:32-35 | the option `TunnelIP("0.0.0.0")`; proved equivalent in `Servers.TunnelExposeIsTunnelIP` |
| `Servers.Default` | server/server.go:30-42 | the server literal `New` starts from: a discarding logger, the parsed default IPs, the default tunnel port, no TLS, no handler |
| `Servers.ApplyOption` | server/option.go:16-98 | what one option closure does to the server's settings; stated in `Servers.ApplyOptionContract` |
| `Servers.Build` | server/server.go:28-52 | the outcome of `New`: the options folded over the defaults |
| `Servers.ApplyOptionContract` | server/option.go:16-98 | `TunnelIP` succeeds iff its text parses and `TunnelPort` iff the port is valid; `TunnelTlsConfig` never fails, and nil clears the setting; `Logger(nil)` and `Handler(nil)` fail; each success sets exactly its field, and each failure reports its own error and changes nothing |
| `Servers.TunnelExposeIsTunnelIP` | server/option.go:32-35 | `TunnelExpose()` behaves exactly as `TunnelIP("0.0.0.0")` |
| `Servers.SameFieldOverrides` | server/server.go:45-49 | in `New`, a later option on the same field overrides an earlier successful one |
| `Servers.Scheme` | server/server.go:147-150 | the scheme is "https" iff a TLS configuration is set, otherwise "http" |
| `Servers.ServeExit` | server/server.go:163-172 | a serve error with the listener cleared is a deliberate shutdown (nil); with the listener present, it is reported wrapped |
| `Servers.Server.constructor` | server/server.go:30-42 | the default server: a discarding logger, the default tunnel address, no TLS, no listener, a fresh channel registry over the default client range |
| `Servers.Server.Apply` | server/option.go:16-98 | running an option closure gives the pure option's result; on failure the server is unchanged; the listener and registry are never touched |
| `Servers.Server.Listen` | server/server.go:117-141 | a bind failure is returned and leaves the server unchanged; on success the listener is set, and it is TLS-wrapped iff a TLS configuration is set |
| `Servers.Server.Start` | server/server.go:85-99 | a bind failure is returned and nothing changes; otherwise the listener is exactly the socket bound at the configured address, TLS-wrapped iff a TLS configuration is set, and the result is the serve loop's early outcome, if any |
| `Servers.Server.Stop` | server/server.go:101-110 | a present listener is closed exactly once and cleared; with no listener nothing changes; afterwards every serve exit classifies as deliberate |
| `Servers.New` | server/server.go:28-52 | succeeds iff folding the options over the defaults succeeds; the new server then has exactly those settings and no listener, and otherwise the first failing option's error is returned |
| `Servers.MustInstantiate` | server/server.go:55-63 | when `New` would succeed, returns `New`'s server: its settings, no listener, nothing closed, and a new initial registry over the default client range satisfying its invariant (a panic otherwise is a precondition) |

## Left out

- The mutexes, the wait group and `Wait`, the serving goroutine, and the 10 ms race between the timer and the error channel in `serve`. Each locked method is one atomic step.
- `Servers.Server.Start`: the serve loop is not run. The parameter `served` is the error `Serve` returned within the start-up window, or None if it was still serving. The wait-group increment is not modelled.
- `net.ParseIP` and `net.ListenTCP` are foreign functions and are parameters of the model. `tls.NewListener` is the `TlsListener` wrapper. `listener.Close` is recorded in the ghost log `closed`. `http.Server.Serve` is not modelled.
- Error texts and the context added by `errors.Wrap`/`errors.Errorf`. `New` returns the failing option's own error, and `Start` returns the bind error without the extra context. Only `ServeExit` keeps its wrapper, as `ServerTerminated`.
- Logging output, and the handler's `ServeHTTP`, which only logs.
- `main.go`: subcommand dispatch, signal handling and process exit.
- `Handlers.MustInstantiate`: the panic is modelled as a precondition that `New` succeeds.
- `Servers.MustInstantiate`: the panic is modelled as a precondition that `New` succeeds.
- `ServerPortRegistry.PortRegistry.Allocate`: a receive from an empty channel blocks forever. This is modelled as a precondition, not as blocking.
- `ServerPortRegistry.PortRegistry.Release`: a send into a full channel would block, but that branch is unreachable, so the model appends without a capacity check.
- `Ranges.Count`: Go's 64-bit `int` overflow in `max - min + 1` for extreme bounds is not modelled. Integers are unbounded here. The fill loops `for i := min; i <= max; i++` (server/handler/portreg/port_registry.go:31 and server/port_registry.go:24) never end when `max` is the largest `int`, because `i` wraps; `Ranges.Ascending` and the constructors' loops always end.
- `Servers.Server.Apply`: Go's nil test on the `Handler` interface value is modelled as a null reference. A typed nil pointer inside a non-nil interface is not distinguished.
