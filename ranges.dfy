/** The arithmetic both port registries share: normalising a (min, max)
    pair and the ascending run of ports min..max that fills a fresh pool. */
module Ranges {

  /** Both constructors swap their arguments when min > max. */
  function Normalize(min: int, max: int): (b: (int, int))
    ensures b.0 <= b.1
    ensures (b.0 == min && b.1 == max) || (b.0 == max && b.1 == min)
  {
    if min > max then (max, min) else (min, max)
  }

  /** The order of the two bounds does not matter. */
  lemma NormalizeSymmetric(min: int, max: int)
    ensures Normalize(min, max) == Normalize(max, min)
  {
  }

  /** The number of ports in the normalised range: `max - min + 1`. */
  function Count(min: int, max: int): (n: nat)
    ensures n >= 1
    ensures var b := Normalize(min, max); b.0 + n - 1 == b.1
  {
    var b := Normalize(min, max);
    b.1 - b.0 + 1
  }

  /** `make([]int, n)`: a slice of n zero values. */
  function Zeros(n: nat): (z: seq<int>)
    ensures |z| == n
    ensures forall i :: 0 <= i < n ==> z[i] == 0
  {
    seq(n, _ => 0)
  }

  /** The ports lo, lo + 1, ..., hi in the order a counting loop appends
      them; empty when lo > hi. */
  function Ascending(lo: int, hi: int): (s: seq<int>)
    ensures |s| == if lo <= hi then hi - lo + 1 else 0
    ensures forall i :: 0 <= i < |s| ==> s[i] == lo + i
    decreases hi - lo
  {
    if lo > hi then [] else [lo] + Ascending(lo + 1, hi)
  }

  /** Consequences used by callers: the entries of an ascending run are
      strictly increasing, hence distinct, and all lie in lo..hi. */
  lemma AscendingIsSorted(lo: int, hi: int)
    ensures forall i, j :: 0 <= i < j < |Ascending(lo, hi)| ==> Ascending(lo, hi)[i] < Ascending(lo, hi)[j]
    ensures forall p :: p in Ascending(lo, hi) <==> lo <= p <= hi
  {
    var s := Ascending(lo, hi);
    forall p | lo <= p <= hi ensures p in s {
      assert s[p - lo] == p;
    }
  }

  /** Appending the next port to a run extends the run by one. */
  lemma AscendingSnoc(lo: int, hi: int)
    requires lo <= hi + 1
    ensures Ascending(lo, hi) + [hi + 1] == Ascending(lo, hi + 1)
  {
  }
}
