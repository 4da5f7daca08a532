/** The handler's port registry (package portreg): a FIFO slice of free
    ports and an `allocated` map. The value `0` doubles as "no port": an
    empty queue and a popped zero are both reported as an allocation error.

    `New` builds its slice with `make([]int, num)` and then appends
    min..max, so a fresh registry queues `num` zeros ahead of the real
    ports; the first `num` calls to `Allocate` fail and mark port 0 as
    allocated. The model keeps that behaviour. */
module PortReg {
  import opened Shared
  import opened Ranges

  /** The registry's state: `allocated` and the `unallocated` queue (head first). */
  datatype Registry = Registry(allocatedPorts: map<int, bool>, unallocated: seq<int>)

  /** Go's `pr.allocated[port]`: a key that is absent reads as false. */
  predicate IsAllocated(r: Registry, port: int)
  {
    port in r.allocatedPorts && r.allocatedPorts[port]
  }

  /** `New(min, max)`: normalise the bounds, then `num` zeros followed by min..max. */
  function Initial(min: int, max: int): Registry
  {
    var b := Normalize(min, max);
    Registry(map[], Zeros(Count(min, max)) + Ascending(b.0, b.1))
  }

  /** One call to `Allocate`: the new state and the reported port. */
  datatype Step = Step(next: Registry, port: Result<int>)

  /** `Allocate`: pop the head (if any) and mark it allocated; a missing or
      zero head is reported as an error. */
  function AllocateStep(r: Registry): Step
  {
    if |r.unallocated| > 0 then
      var port := r.unallocated[0];
      Step(Registry(r.allocatedPorts[port := true], r.unallocated[1..]),
           if port == 0 then Err(CannotAllocatePort) else Ok(port))
    else
      Step(r, Err(CannotAllocatePort))
  }

  /** `Release(port)`: re-queue `port` at the tail, only if it is marked allocated. */
  function ReleaseStep(r: Registry, port: int): Registry
  {
    if IsAllocated(r, port) then Registry(r.allocatedPorts - {port}, r.unallocated + [port])
    else r
  }

  /** What `New` builds: an empty map and a queue of `num` zeros followed by
      the normalised bounds in ascending order; swapping the arguments
      changes nothing. */
  lemma InitialShape(min: int, max: int)
    ensures var r, b, n := Initial(min, max), Normalize(min, max), Count(min, max);
      && r.allocatedPorts == map[]
      && |r.unallocated| == 2 * n
      && (forall i :: 0 <= i < n ==> r.unallocated[i] == 0)
      && (forall i :: n <= i < 2 * n ==> r.unallocated[i] == b.0 + (i - n))
      && b.0 <= b.1 && n == b.1 - b.0 + 1
    ensures Initial(min, max) == Initial(max, min)
  {
    NormalizeSymmetric(min, max);
  }

  /** `Allocate` on a non-empty queue removes exactly the head, marks it
      allocated and keeps the rest of the queue in order; the report is an
      error exactly when the queue was empty or the head was 0, otherwise the
      head itself. On an empty queue nothing changes. */
  lemma AllocateBehaviour(r: Registry)
    ensures var s := AllocateStep(r);
      && (s.port.Err? <==> |r.unallocated| == 0 || r.unallocated[0] == 0)
      && (s.port.Err? ==> s.port.error == CannotAllocatePort)
      && (s.port.Ok? ==> s.port.value == r.unallocated[0])
      && (|r.unallocated| == 0 ==> s.next == r)
      && (|r.unallocated| > 0 ==>
            && s.next.unallocated == r.unallocated[1..]
            && IsAllocated(s.next, r.unallocated[0])
            && forall p :: p != r.unallocated[0] ==> (IsAllocated(s.next, p) <==> IsAllocated(r, p)))
  {
  }

  /** `Release(port)` of an allocated port unmarks it and appends it to the
      tail; of any other port it changes nothing. */
  lemma ReleaseBehaviour(r: Registry, port: int)
    ensures var n := ReleaseStep(r, port);
      && (IsAllocated(r, port) ==>
            && !IsAllocated(n, port)
            && n.unallocated == r.unallocated + [port]
            && forall p :: p != port ==> (IsAllocated(n, p) <==> IsAllocated(r, p)))
      && (!IsAllocated(r, port) ==> n == r)
  {
  }

  // The pool invariant, over the nonzero ports.

  /** The nonzero ports waiting in the queue. */
  ghost function Free(r: Registry): set<int>
  {
    set p | p in r.unallocated && p != 0
  }

  /** The nonzero ports marked allocated. */
  ghost function Held(r: Registry): set<int>
  {
    set p | p in r.allocatedPorts && r.allocatedPorts[p] && p != 0
  }

  /** The nonzero ports of the range lo..hi. */
  ghost function Ports(lo: int, hi: int): (ps: set<int>)
    ensures forall p :: p in ps <==> lo <= p <= hi && p != 0
  {
    AscendingIsSorted(lo, hi);
    set p | p in Ascending(lo, hi) && p != 0
  }

  /** In a queue without repeated nonzero ports, a nonzero head does not
      come back later in the queue. */
  lemma HeadNotInTail(q: seq<int>)
    requires QueueDistinct(q) && |q| > 0 && q[0] != 0
    ensures q[0] !in q[1..]
  {
    forall j | 0 <= j < |q| - 1 ensures q[1..][j] != q[0] {
      assert q[1..][j] == q[j + 1];
    }
  }

  /** No nonzero port is queued twice. */
  ghost predicate QueueDistinct(q: seq<int>)
  {
    forall i, j :: 0 <= i < j < |q| && q[i] != 0 ==> q[i] != q[j]
  }

  /** Every nonzero port of lo..hi is either queued or allocated, never
      both, nothing else is, and no nonzero port is queued twice. */
  ghost predicate Inv(r: Registry, lo: int, hi: int)
  {
    && Free(r) !! Held(r)
    && Free(r) + Held(r) == Ports(lo, hi)
    && QueueDistinct(r.unallocated)
  }

  /** The invariant holds of a fresh registry. */
  lemma InitialInv(min: int, max: int)
    ensures Inv(Initial(min, max), Normalize(min, max).0, Normalize(min, max).1)
  {
    var b, n := Normalize(min, max), Count(min, max);
    var r := Initial(min, max);
    var q := r.unallocated;
    var asc := Ascending(b.0, b.1);
    assert q == Zeros(n) + asc;
    AscendingIsSorted(b.0, b.1);
    assert Held(r) == {};
    forall p | p in Ports(b.0, b.1) ensures p in Free(r) {
      assert q[n + (p - b.0)] == p;
    }
    forall p | p in Free(r) ensures p in Ports(b.0, b.1) {
      var i :| 0 <= i < |q| && q[i] == p;
      assert i >= n;
      assert q[i] == asc[i - n];
    }
    forall i, j | 0 <= i < j < |q| && q[i] != 0 ensures q[i] != q[j] {
      assert i >= n;
      assert q[i] == asc[i - n] && q[j] == asc[j - n];
    }
  }

  /** `Allocate` preserves the invariant. */
  lemma AllocateInv(r: Registry, lo: int, hi: int)
    requires Inv(r, lo, hi)
    ensures Inv(AllocateStep(r).next, lo, hi)
  {
    if |r.unallocated| > 0 {
      var q, port := r.unallocated, r.unallocated[0];
      var n := AllocateStep(r).next;
      assert q == [port] + q[1..];
      assert forall p :: p in q <==> p == port || p in q[1..];
      if port == 0 {
        assert Free(n) == Free(r);
        assert Held(n) == Held(r);
      } else {
        HeadNotInTail(q);
        assert Free(n) == Free(r) - {port};
        assert Held(n) == Held(r) + {port};
      }
    }
  }

  /** `Release` preserves the invariant, whatever port it is given. */
  lemma ReleaseInv(r: Registry, lo: int, hi: int, port: int)
    requires Inv(r, lo, hi)
    ensures Inv(ReleaseStep(r, port), lo, hi)
  {
    if IsAllocated(r, port) {
      var q, n := r.unallocated, ReleaseStep(r, port);
      assert forall p :: p in n.unallocated <==> p in q || p == port;
      if port == 0 {
        assert Free(n) == Free(r);
        assert Held(n) == Held(r);
      } else {
        assert port in Held(r);
        assert port !in q;
        assert Free(n) == Free(r) + {port};
        assert Held(n) == Held(r) - {port};
      }
    }
  }

  /** A successful `Allocate` never hands out a port that is currently
      allocated: it returns a free port of the range, which is then
      allocated and no longer queued. */
  lemma AllocateFresh(r: Registry, lo: int, hi: int)
    requires Inv(r, lo, hi)
    ensures var s := AllocateStep(r);
      s.port.Ok? ==>
        && !IsAllocated(r, s.port.value)
        && lo <= s.port.value <= hi
        && IsAllocated(s.next, s.port.value)
        && s.port.value !in s.next.unallocated
  {
    var s := AllocateStep(r);
    if s.port.Ok? {
      var q, port := r.unallocated, r.unallocated[0];
      assert port in Free(r);
      HeadNotInTail(q);
    }
  }

  // Several allocations in a row.

  /** The port `Allocate` reports for a popped head. */
  function Reported(head: int): Result<int>
  {
    if head == 0 then Err(CannotAllocatePort) else Ok(head)
  }

  /** `k` consecutive calls to `Allocate`: the final state and the reports. */
  function AllocateTimes(r: Registry, k: nat): (Registry, seq<Result<int>>)
    decreases k
  {
    if k == 0 then (r, [])
    else
      var s := AllocateStep(r);
      var rest := AllocateTimes(s.next, k - 1);
      (rest.0, [s.port] + rest.1)
  }

  /** `k` allocations from a queue of at least `k` entries pop its first `k`
      entries in order, report each as `Allocate` does, and mark each of
      them allocated. */
  lemma {:induction false} AllocateTimesPops(r: Registry, k: nat)
    requires k <= |r.unallocated|
    ensures var t := AllocateTimes(r, k);
      && |t.1| == k
      && (forall i :: 0 <= i < k ==> t.1[i] == Reported(r.unallocated[i]))
      && t.0.unallocated == r.unallocated[k..]
      && forall p :: IsAllocated(t.0, p) <==> IsAllocated(r, p) || p in r.unallocated[..k]
    decreases k
  {
    if k > 0 {
      var s := AllocateStep(r);
      AllocateTimesPops(s.next, k - 1);
      var q := r.unallocated;
      assert s.next.unallocated == q[1..];
      assert q[1..][k - 1..] == q[k..];
      assert forall i :: 1 <= i < k ==> q[1..][i - 1] == q[i];
      assert q[..k] == [q[0]] + q[1..][..k - 1];
    }
  }

  /** From a fresh registry, the first `num` allocations all fail (they pop
      the zeros of `make([]int, num)`) and leave port 0 marked allocated;
      the following ones return the ports of the range in ascending order
      (only a range that contains 0 reports an error for it). */
  lemma InitialAllocations(min: int, max: int, k: nat)
    requires k <= 2 * Count(min, max)
    ensures var t, b, n := AllocateTimes(Initial(min, max), k), Normalize(min, max), Count(min, max);
      && |t.1| == k
      && (forall i :: 0 <= i < k && i < n ==> t.1[i] == Err(CannotAllocatePort))
      && (forall i :: n <= i < k ==> t.1[i] == Reported(b.0 + (i - n)))
      && (k >= 1 ==> IsAllocated(t.0, 0))
      && (k == n ==> t.0.unallocated == Ascending(b.0, b.1))
  {
    var r, n := Initial(min, max), Count(min, max);
    InitialShape(min, max);
    AllocateTimesPops(r, k);
    if k >= 1 {
      assert r.unallocated[..k][0] == 0;
    }
    if k == n {
      assert r.unallocated[k..] == Ascending(Normalize(min, max).0, Normalize(min, max).1);
    }
  }

  /** The registry object: `allocated` and `unallocated` are updated in place. */
  class PortRegistry {
    var allocatedPorts: map<int, bool>
    var unallocated: seq<int>
    ghost const lo: int
    ghost const hi: int

    /** The registry's current value. */
    function Value(): Registry
      reads this
    {
      Registry(allocatedPorts, unallocated)
    }

    ghost predicate Valid()
      reads this
    {
      Inv(Value(), lo, hi)
    }

    /** `New(min, max)`. */
    constructor (min: int, max: int)
      ensures Value() == Initial(min, max)
      ensures (lo, hi) == Normalize(min, max)
      ensures Valid()
    {
      var low, high := min, max;
      if low > high {
        low, high := high, low;
      }
      var num := high - low + 1;
      var queue := Zeros(num);
      var i := low;
      while i <= high
        invariant low <= i <= high + 1
        invariant queue == Zeros(num) + Ascending(low, i - 1)
      {
        AscendingSnoc(low, i - 1);
        queue := queue + [i];
        i := i + 1;
      }
      allocatedPorts := map[];
      unallocated := queue;
      lo, hi := low, high;
      new;
      InitialInv(min, max);
    }

    /** `Allocate`: the reported port and new state are those of `AllocateStep`. */
    method Allocate() returns (port: Result<int>)
      modifies this
      ensures Step(Value(), port) == AllocateStep(old(Value()))
      ensures old(Valid()) ==> Valid()
    {
      if Valid() {
        AllocateInv(Value(), lo, hi);
      }
      var head := 0;
      if |unallocated| > 0 {
        head, unallocated := unallocated[0], unallocated[1..];
        allocatedPorts := allocatedPorts[head := true];
      }
      if head == 0 {
        return Err(CannotAllocatePort);
      }
      return Ok(head);
    }

    /** `Release(port)`: the new state is that of `ReleaseStep`. */
    method Release(port: int)
      modifies this
      ensures Value() == ReleaseStep(old(Value()), port)
      ensures old(Valid()) ==> Valid()
    {
      if Valid() {
        ReleaseInv(Value(), lo, hi, port);
      }
      if port in allocatedPorts && allocatedPorts[port] {
        allocatedPorts := allocatedPorts - {port};
        unallocated := unallocated + [port];
      }
    }
  }
}
