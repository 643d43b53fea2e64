/** Cells of a pandas frame, the float64 arithmetic the aggregation performs on
    them, Python 2's `round`, and the exceptions a lookup can raise. */
module Values {

  datatype Option<+T> = None | Some(value: T)

  /** A float64 cell. `Some(x)` is a finite value; `None` stands for NaN or an
      infinity. Every operation below propagates `None`, as IEEE arithmetic
      keeps a non-finite operand non-finite (inf * 0 and inf - inf are NaN). */
  type Num = Option<real>

  /** What the source raises; the model returns it instead. */
  datatype Failure =
    | NoOutputTable          // the explicit `raise Exception(...)` of compute_aggregates
    | MissingKey(key: string) // a KeyError from a dict, an engine lookup or a frame column
    | NotSet(field: string)  // an attribute still `None` used as a list or a frame
    | LengthMismatch         // columns of different lengths (ValueError)

  datatype Result<+T> = Ok(value: T) | Err(failure: Failure)

  function Add(a: Num, b: Num): Num {
    if a.Some? && b.Some? then Some(a.value + b.value) else None
  }

  function Sub(a: Num, b: Num): Num {
    if a.Some? && b.Some? then Some(a.value - b.value) else None
  }

  function Mul(a: Num, b: Num): Num {
    if a.Some? && b.Some? then Some(a.value * b.value) else None
  }

  function Neg(a: Num): Num {
    if a.Some? then Some(-a.value) else None
  }

  /** Division by one of the unit constants (10**6, 10**3). */
  function DivBy(a: Num, d: real): Num
    requires d != 0.0
  {
    if a.Some? then Some(a.value / d) else None
  }

  /** An int-or-nan result placed in a float64 column. */
  function FromInt(x: Option<int>): Num {
    if x.Some? then Some(x.value as real) else None
  }

  /** Python's built-in `sum`: 0 for no terms, non-finite as soon as one term is. */
  function Sum(xs: seq<Num>): (r: Num)
    ensures r.None? <==> exists i :: 0 <= i < |xs| && xs[i].None?
  {
    if xs == [] then Some(0.0)
    else
      var rest := Sum(xs[1..]);
      assert forall i :: 1 <= i < |xs| ==> xs[i] == xs[1..][i - 1];
      Add(xs[0], rest)
  }

  /** A running total `acc = 0; for x in xs: acc += x`, added up from the left. */
  function LeftSum(xs: seq<Num>): Num {
    if xs == [] then Some(0.0) else Add(LeftSum(xs[..|xs| - 1]), xs[|xs| - 1])
  }

  lemma {:induction false} SumAppend(xs: seq<Num>, x: Num)
    ensures Sum(xs + [x]) == Add(Sum(xs), x)
  {
    if xs != [] {
      assert (xs + [x])[1..] == xs[1..] + [x];
      SumAppend(xs[1..], x);
      var s := Sum(xs[1..]);
      if xs[0].Some? && s.Some? && x.Some? {
        assert Add(xs[0], Add(s, x)).value == xs[0].value + (s.value + x.value);
      }
    }
  }

  /** Adding up from the left or from the right gives the same total: the
      running totals of the source are `Sum`. */
  lemma {:induction false} LeftSumIsSum(xs: seq<Num>)
    ensures LeftSum(xs) == Sum(xs)
  {
    if xs != [] {
      var init := xs[..|xs| - 1];
      LeftSumIsSum(init);
      SumAppend(init, xs[|xs| - 1]);
      assert init + [xs[|xs| - 1]] == xs;
    }
  }

  /** Every cell multiplied by the constant `k`. */
  function ScaleAll(xs: seq<Num>, k: real): (ys: seq<Num>)
    ensures |ys| == |xs|
  {
    seq(|xs|, i requires 0 <= i < |xs| => Mul(xs[i], Some(k)))
  }

  lemma {:induction false} SumScales(xs: seq<Num>, k: real)
    ensures Sum(ScaleAll(xs, k)) == Mul(Sum(xs), Some(k))
  {
    if xs != [] {
      assert ScaleAll(xs, k)[1..] == ScaleAll(xs[1..], k);
      SumScales(xs[1..], k);
      var s := Sum(xs[1..]);
      assert Sum(ScaleAll(xs, k)) == Add(Mul(xs[0], Some(k)), Mul(s, Some(k)));
      assert Sum(xs) == Add(xs[0], s);
      if xs[0].Some? && s.Some? {
        var a, b := xs[0].value, s.value;
        assert Mul(xs[0], Some(k)).value == a * k;
        assert Mul(s, Some(k)).value == b * k;
        assert Mul(Add(xs[0], s), Some(k)).value == (a + b) * k == a * k + b * k;
      }
    }
  }

  lemma {:induction false} SumOfZeros(xs: seq<Num>)
    requires forall i :: 0 <= i < |xs| ==> xs[i] == Some(0.0)
    ensures Sum(xs) == Some(0.0)
  {
    if xs != [] {
      SumOfZeros(xs[1..]);
    }
  }

  /** Python 2's `round(x)`: to the nearest integer, halves away from zero. */
  function RoundHalfAway(x: real): (r: int)
    ensures x >= 0.0 ==> x - 0.5 < r as real <= x + 0.5
    ensures x < 0.0 ==> x - 0.5 <= r as real < x + 0.5
  {
    if x >= 0.0 then (x + 0.5).Floor else -((-x + 0.5).Floor)
  }

  /** The two bounds above leave a single integer: they specify the rounding. */
  lemma RoundHalfAwayUnique(x: real, n: int)
    requires x >= 0.0 ==> x - 0.5 < n as real <= x + 0.5
    requires x < 0.0 ==> x - 0.5 <= n as real < x + 0.5
    ensures n == RoundHalfAway(x)
  {
  }

  /** Rounding commutes with negation, which a round-half-even rule would too
      but a floor-based one would not. */
  lemma RoundHalfAwayOdd(x: real)
    ensures RoundHalfAway(-x) == -RoundHalfAway(x)
  {
    if x != 0.0 {
      RoundHalfAwayUnique(-x, -RoundHalfAway(x));
    }
  }
}
