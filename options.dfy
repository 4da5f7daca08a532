/** The functional-options pattern both constructors use: apply each option
    to the freshly defaulted record in the order given, and abort with the
    first error. `Fold` is the value-level specification of those loops. */
module Options {
  import opened Shared

  /** Apply `options` to `c` from first to last; the first failing option's
      error is the result and no later option runs. */
  function Fold<C, O>(apply: (C, O) -> Result<C>, c: C, options: seq<O>): (r: Result<C>)
    decreases |options|
  {
    if options == [] then Ok(c)
    else
      match apply(c, options[0])
      case Err(e) => Err(e)
      case Ok(c') => Fold(apply, c', options[1..])
  }

  /** Folding a concatenation folds the first part, then the second from
      where the first left off. */
  lemma {:induction false} FoldSplit<C, O>(apply: (C, O) -> Result<C>, c: C, a: seq<O>, b: seq<O>)
    ensures Fold(apply, c, a + b) ==
      match Fold(apply, c, a)
      case Err(e) => Err(e)
      case Ok(c') => Fold(apply, c', b)
    decreases |a|
  {
    if a == [] {
      assert a + b == b;
    } else {
      assert (a + b)[0] == a[0];
      assert (a + b)[1..] == a[1..] + b;
      match apply(c, a[0])
      case Err(e) =>
      case Ok(c') => FoldSplit(apply, c', a[1..], b);
    }
  }

  /** Options are applied in order: the result of a run that succeeds on its
      prefix and then hits option `options[i]` is what that option makes of
      the prefix's record; in particular a failing `options[i]` ends the run
      with its own error and nothing after it is applied. */
  lemma FoldStopsAt<C, O>(apply: (C, O) -> Result<C>, c: C, options: seq<O>, i: nat)
    requires i < |options|
    requires Fold(apply, c, options[..i]).Ok?
    ensures apply(Fold(apply, c, options[..i]).value, options[i]).Err? ==>
      Fold(apply, c, options) == Err(apply(Fold(apply, c, options[..i]).value, options[i]).error)
    ensures apply(Fold(apply, c, options[..i]).value, options[i]).Ok? ==>
      Fold(apply, c, options) == Fold(apply, apply(Fold(apply, c, options[..i]).value, options[i]).value, options[i + 1..])
  {
    assert options == options[..i] + options[i..];
    FoldSplit(apply, c, options[..i], options[i..]);
    assert options[i..][1..] == options[i + 1..];
  }

  /** When, at the point reached after `a`, an option `later` applied right
      after a successful `earlier` gives what `later` alone would have given,
      then `earlier` followed by `later` folds exactly as `later` alone,
      whatever comes after. */
  lemma FoldOverride<C, O>(apply: (C, O) -> Result<C>, c: C, a: seq<O>, earlier: O, later: O, b: seq<O>)
    requires Fold(apply, c, a).Ok? && apply(Fold(apply, c, a).value, earlier).Ok?
    requires apply(apply(Fold(apply, c, a).value, earlier).value, later) == apply(Fold(apply, c, a).value, later)
    ensures Fold(apply, c, a + [earlier, later] + b) == Fold(apply, c, a + [later] + b)
  {
    assert a + [earlier, later] + b == a + ([earlier] + ([later] + b));
    assert a + [later] + b == a + ([later] + b);
    FoldSplit(apply, c, a, [earlier] + ([later] + b));
    FoldSplit(apply, c, a, [later] + b);
    var ca := Fold(apply, c, a).value;
    assert ([earlier] + ([later] + b))[0] == earlier;
    assert ([earlier] + ([later] + b))[1..] == [later] + b;
    assert ([later] + b)[0] == later;
    assert ([later] + b)[1..] == b;
    assert [earlier][1..] == [];
  }
}
