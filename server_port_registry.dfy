/** The server's own port registry (server/port_registry.go): a buffered
    channel pre-filled with min..max serves as the FIFO of free ports, next
    to an `allocated` map. The channel is modelled by its contents, oldest
    first, and its fixed capacity.

    `allocate` receives from the channel and never writes the map, so the
    guard of `release` is false in every reachable state and `release`
    never changes anything. */
module ServerPortRegistry {
  import opened Ranges

  /** The registry's state: the `allocated` map, the channel's buffered
      ports (oldest first) and the channel's capacity. */
  datatype Pool = Pool(allocatedPorts: map<int, bool>, buffer: seq<int>, capacity: nat)

  /** Go's `pr.allocated[port]`: a key that is absent reads as false. */
  predicate IsAllocated(p: Pool, port: int)
  {
    port in p.allocatedPorts && p.allocatedPorts[port]
  }

  /** `newPortRegistry(min, max)`: a channel of capacity `max - min + 1`
      holding min..max, and an empty map. */
  function Initial(min: int, max: int): Pool
  {
    var b := Normalize(min, max);
    Pool(map[], Ascending(b.0, b.1), Count(min, max))
  }

  /** `allocate`: receive the oldest buffered port. Receiving from an empty
      channel blocks forever, so callers must not do it. */
  function AllocateStep(p: Pool): (int, Pool)
    requires |p.buffer| > 0
  {
    (p.buffer[0], p.(buffer := p.buffer[1..]))
  }

  /** `release(port)`: only a port marked allocated is unmarked and sent
      back into the channel. */
  function ReleaseStep(p: Pool, port: int): Pool
  {
    if IsAllocated(p, port) then Pool(p.allocatedPorts - {port}, p.buffer + [port], p.capacity)
    else p
  }

  /** What `newPortRegistry` builds: exactly min..max in ascending order in
      a channel of capacity `max - min + 1`, nothing allocated; the order of
      the arguments does not matter. */
  lemma InitialShape(min: int, max: int)
    ensures var p, b := Initial(min, max), Normalize(min, max);
      && p.allocatedPorts == map[]
      && p.capacity == b.1 - b.0 + 1 == |p.buffer|
      && (forall i :: 0 <= i < |p.buffer| ==> p.buffer[i] == b.0 + i)
    ensures Initial(min, max) == Initial(max, min)
  {
    NormalizeSymmetric(min, max);
  }

  /** The invariant of every reachable state: nothing is marked allocated,
      and the channel holds the largest ports of lo..hi, ascending (what is
      left after the smallest ones were received). */
  ghost predicate Inv(p: Pool, lo: int, hi: int)
  {
    && p.allocatedPorts == map[]
    && lo <= hi
    && p.capacity == hi - lo + 1
    && |p.buffer| <= p.capacity
    && p.buffer == Ascending(hi - |p.buffer| + 1, hi)
  }

  /** The invariant holds of a fresh registry. */
  lemma InitialInv(min: int, max: int)
    ensures Inv(Initial(min, max), Normalize(min, max).0, Normalize(min, max).1)
  {
  }

  /** `allocate` keeps the invariant, leaves the map untouched and returns
      the smallest port still buffered, which lies in lo..hi. */
  lemma AllocateInv(p: Pool, lo: int, hi: int)
    requires Inv(p, lo, hi) && |p.buffer| > 0
    ensures Inv(AllocateStep(p).1, lo, hi)
    ensures AllocateStep(p).1.allocatedPorts == p.allocatedPorts
    ensures AllocateStep(p).0 == hi - |p.buffer| + 1
    ensures lo <= AllocateStep(p).0 <= hi
  {
    var rest := AllocateStep(p).1.buffer;
    assert rest == Ascending(hi - |rest| + 1, hi);
  }

  /** In every reachable state `release` changes nothing, whatever port it
      is given (and so keeps the invariant). */
  lemma ReleaseNoOp(p: Pool, lo: int, hi: int, port: int)
    requires Inv(p, lo, hi)
    ensures !IsAllocated(p, port)
    ensures ReleaseStep(p, port) == p
  {
  }

  /** `k` consecutive calls to `allocate`: the ports received and the final state. */
  function AllocateTimes(p: Pool, k: nat): (seq<int>, Pool)
    requires k <= |p.buffer|
    decreases k
  {
    if k == 0 then ([], p)
    else
      var s := AllocateStep(p);
      var rest := AllocateTimes(s.1, k - 1);
      ([s.0] + rest.0, rest.1)
  }

  /** `k` allocations receive the `k` oldest buffered ports in order and
      leave the rest buffered; the map is never touched. */
  lemma {:induction false} AllocateTimesTakesOldest(p: Pool, k: nat)
    requires k <= |p.buffer|
    ensures AllocateTimes(p, k).0 == p.buffer[..k]
    ensures AllocateTimes(p, k).1 == p.(buffer := p.buffer[k..])
    decreases k
  {
    if k > 0 {
      var s := AllocateStep(p);
      AllocateTimesTakesOldest(s.1, k - 1);
      assert p.buffer[..k] == [p.buffer[0]] + p.buffer[1..][..k - 1];
      assert p.buffer[1..][k - 1..] == p.buffer[k..];
    }
  }

  /** The first `k <= num` allocations from a fresh registry return `k`
      distinct ports of the range, in ascending order: min, min + 1, ... */
  lemma InitialAllocations(min: int, max: int, k: nat)
    requires k <= Count(min, max)
    ensures var ports, lo, hi := AllocateTimes(Initial(min, max), k).0, Normalize(min, max).0, Normalize(min, max).1;
      && |ports| == k
      && (forall i :: 0 <= i < k ==> ports[i] == lo + i && lo <= ports[i] <= hi)
      && (forall i, j :: 0 <= i < j < k ==> ports[i] < ports[j])
  {
    AllocateTimesTakesOldest(Initial(min, max), k);
  }

  /** The registry object: the map and the channel are updated in place. */
  class PortRegistry {
    var allocatedPorts: map<int, bool>
    var unallocated: seq<int>
    const capacity: nat
    ghost const lo: int
    ghost const hi: int

    /** The registry's current value. */
    function Value(): Pool
      reads this
    {
      Pool(allocatedPorts, unallocated, capacity)
    }

    ghost predicate Valid()
      reads this
    {
      Inv(Value(), lo, hi)
    }

    /** `newPortRegistry(min, max)`. */
    constructor (min: int, max: int)
      ensures Value() == Initial(min, max)
      ensures (lo, hi) == Normalize(min, max)
      ensures Valid()
    {
      var low, high := min, max;
      if low > high {
        low, high := high, low;
      }
      var num := high - low + 1;
      var channel := [];
      var i := low;
      while i <= high
        invariant low <= i <= high + 1
        invariant channel == Ascending(low, i - 1)
      {
        AscendingSnoc(low, i - 1);
        channel := channel + [i];
        i := i + 1;
      }
      allocatedPorts := map[];
      unallocated := channel;
      capacity := num;
      lo, hi := low, high;
    }

    /** `allocate`: the port received and the new state are those of
        `AllocateStep`; the channel must not be empty. */
    method Allocate() returns (port: int)
      requires |unallocated| > 0
      modifies this
      ensures (port, Value()) == AllocateStep(old(Value()))
      ensures old(Valid()) ==> Valid()
    {
      if Valid() {
        AllocateInv(Value(), lo, hi);
      }
      port, unallocated := unallocated[0], unallocated[1..];
    }

    /** `release(port)`: the new state is that of `ReleaseStep`; from any
        valid state, that is the old state itself. */
    method Release(port: int)
      modifies this
      ensures Value() == ReleaseStep(old(Value()), port)
      ensures old(Valid()) ==> Valid() && unchanged(this)
    {
      if Valid() {
        ReleaseNoOp(Value(), lo, hi, port);
      }
      if port in allocatedPorts && allocatedPorts[port] {
        allocatedPorts := allocatedPorts - {port};
        unallocated := unallocated + [port];
      }
    }
  }
}
