/** The reduction inside `Aggregates.get_aggregate`: per-record values times
    the survey weight times the filter, summed, scaled to millions (amounts)
    or thousands (beneficiaries) and rounded to an integer. */
module Reducer {
  import opened Values

  /** `10**6`: amounts are reported in millions. */
  const AmountUnit: real := 1000000.0
  /** `10**3`: beneficiaries are reported in thousands. */
  const BeneficiaryUnit: real := 1000.0

  /** The `[amount, benef]` pair reported for one dataset. */
  datatype Aggregate = Aggregate(amount: Option<int>, beneficiaries: Option<int>)

  /** `data[WEIGHT]*filter`, where the filter is the constant 1 when no
      filtering variable is set. A record's weight is non-finite exactly when
      its survey weight or its filter value is; multiplying by the constant 1
      gives the survey weights back, NaN entries included. */
  function WeightVector(weight: seq<Num>, filter: Option<seq<Num>>): (w: seq<Num>)
    requires filter.Some? ==> |filter.value| == |weight|
    ensures |w| == |weight|
    ensures filter.None? ==> w == weight
    ensures filter.Some? ==> forall i :: 0 <= i < |w| ==> (w[i].None? <==> weight[i].None? || filter.value[i].None?)
  {
    var f := if filter.Some? then filter.value else seq(|weight|, _ => Some(1.0));
    var w := seq(|weight|, i requires 0 <= i < |weight| => Mul(weight[i], f[i]));
    assert filter.None? ==> forall i :: 0 <= i < |w| ==> w[i] == weight[i];
    w
  }

  /** Element-wise product of two aligned series. */
  function Products(xs: seq<Num>, ws: seq<Num>): (ps: seq<Num>)
    requires |xs| == |ws|
    ensures |ps| == |xs|
  {
    seq(|xs|, i requires 0 <= i < |xs| => Mul(xs[i], ws[i]))
  }

  /** `values != 0` as 0/1 numbers. NaN compares unequal to 0, so it is a 1. */
  function NonZero(values: seq<Num>): (flags: seq<Num>)
    ensures |flags| == |values|
    ensures forall i :: 0 <= i < |values| ==> flags[i] == Some(0.0) || flags[i] == Some(1.0)
    ensures forall i :: 0 <= i < |values| ==> (flags[i] == Some(1.0) <==> values[i] != Some(0.0))
  {
    seq(|values|, i requires 0 <= i < |values| => if values[i] == Some(0.0) then Some(0.0) else Some(1.0))
  }

  /** `sum(montants*weight)` */
  function AmountTotal(values: seq<Num>, w: seq<Num>): (r: Num)
    requires |values| == |w|
    ensures r.None? <==> exists i :: 0 <= i < |w| && (values[i].None? || w[i].None?)
  {
    var products := Products(values, w);
    assert forall i :: 0 <= i < |w| ==> (products[i].None? <==> values[i].None? || w[i].None?);
    Sum(products)
  }

  /** `sum(beneficiaires*weight)` */
  function BeneficiaryTotal(values: seq<Num>, w: seq<Num>): (r: Num)
    requires |values| == |w|
    ensures r.None? <==> exists i :: 0 <= i < |w| && w[i].None?
  {
    var flagged := Products(NonZero(values), w);
    assert forall i :: 0 <= i < |w| ==> (flagged[i].None? <==> w[i].None?);
    Sum(flagged)
  }

  /** `int(round(total/unit))`, or `nan` when `int` raises on a non-finite total. */
  function Scaled(total: Num, unit: real): (r: Option<int>)
    requires unit > 0.0
    ensures r.None? <==> total.None?
    ensures r.Some? ==> -0.5 <= r.value as real - total.value / unit <= 0.5
  {
    if total.Some? then Some(RoundHalfAway(total.value / unit)) else None
  }

  /** One dataset's `[amount, benef]` under the weight vector `w`. Each cell is
      missing exactly when its own sum is non-finite: a NaN value spoils the
      amount only, a NaN weight spoils both. */
  function Reduce(values: seq<Num>, w: seq<Num>): (r: Aggregate)
    requires |values| == |w|
    ensures r.amount.None? <==> exists i :: 0 <= i < |w| && (values[i].None? || w[i].None?)
    ensures r.beneficiaries.None? <==> exists i :: 0 <= i < |w| && w[i].None?
  {
    Aggregate(Scaled(AmountTotal(values, w), AmountUnit), Scaled(BeneficiaryTotal(values, w), BeneficiaryUnit))
  }

  /** Reference definition of the beneficiary total: the sum of the weights of
      the records whose value is not 0 (a NaN value is not 0). */
  function CountedWeight(values: seq<Num>, w: seq<Num>): real
    requires |values| == |w|
    requires forall i :: 0 <= i < |w| ==> w[i].Some?
  {
    if w == [] then 0.0
    else (if values[0] == Some(0.0) then 0.0 else w[0].value) + CountedWeight(values[1..], w[1..])
  }

  /** With finite weights, the beneficiary total is exactly the weight of the
      records whose value is non-zero. */
  lemma {:induction false} BeneficiariesAreNonZeroRecords(values: seq<Num>, w: seq<Num>)
    requires |values| == |w|
    requires forall i :: 0 <= i < |w| ==> w[i].Some?
    ensures BeneficiaryTotal(values, w) == Some(CountedWeight(values, w))
  {
    if w != [] {
      assert Products(NonZero(values), w)[1..] == Products(NonZero(values[1..]), w[1..]);
      BeneficiariesAreNonZeroRecords(values[1..], w[1..]);
      var head := Products(NonZero(values), w)[0];
      if values[0] == Some(0.0) {
        assert head.value == 0.0 * w[0].value == 0.0;
      } else {
        assert head.value == 1.0 * w[0].value == w[0].value;
      }
    }
  }

  lemma {:induction false} CountedWeightIgnoresZeroRecord(values: seq<Num>, w: seq<Num>, i: nat, x: real)
    requires |values| == |w| && i < |w|
    requires forall j :: 0 <= j < |w| ==> w[j].Some?
    requires values[i] == Some(0.0)
    ensures CountedWeight(values, w[i := Some(x)]) == CountedWeight(values, w)
  {
    var w' := w[i := Some(x)];
    if i > 0 {
      assert w'[1..] == w[1..][i - 1 := Some(x)];
      CountedWeightIgnoresZeroRecord(values[1..], w[1..], i - 1, x);
    } else {
      assert w'[1..] == w[1..];
    }
  }

  /** A record whose value is 0 never adds to the beneficiaries, whatever its
      (finite) weight. */
  lemma ZeroValuedRecordNeverCounts(values: seq<Num>, w: seq<Num>, i: nat, x: real)
    requires |values| == |w| && i < |w|
    requires forall j :: 0 <= j < |w| ==> w[j].Some?
    requires values[i] == Some(0.0)
    ensures BeneficiaryTotal(values, w[i := Some(x)]) == BeneficiaryTotal(values, w)
  {
    BeneficiariesAreNonZeroRecords(values, w);
    BeneficiariesAreNonZeroRecords(values, w[i := Some(x)]);
    CountedWeightIgnoresZeroRecord(values, w, i, x);
  }

  /** A filter that is 0 everywhere gives two zero cells, not missing ones, as
      long as values and weights are finite. */
  lemma ZeroFilterGivesZeros(values: seq<Num>, weight: seq<Num>, filter: seq<Num>)
    requires |values| == |weight| == |filter|
    requires forall i :: 0 <= i < |values| ==> values[i].Some? && weight[i].Some?
    requires forall i :: 0 <= i < |filter| ==> filter[i] == Some(0.0)
    ensures Reduce(values, WeightVector(weight, Some(filter))) == Aggregate(Some(0), Some(0))
  {
    var w := WeightVector(weight, Some(filter));
    assert forall i :: 0 <= i < |w| ==> w[i].value == weight[i].value * 0.0 == 0.0;
    var ps := Products(values, w);
    assert forall i :: 0 <= i < |ps| ==> ps[i].value == values[i].value * 0.0 == 0.0;
    SumOfZeros(ps);
    var fs := Products(NonZero(values), w);
    assert forall i :: 0 <= i < |fs| ==> fs[i].value == NonZero(values)[i].value * 0.0 == 0.0;
    SumOfZeros(fs);
  }

  /** Values that are all NaN make the amount missing, but every record then
      counts as a beneficiary: the beneficiary total is the total weight. */
  lemma AllMissingValues(values: seq<Num>, w: seq<Num>)
    requires |values| == |w| > 0
    requires forall i :: 0 <= i < |values| ==> values[i].None? && w[i].Some?
    ensures Reduce(values, w) == Aggregate(None, Scaled(Sum(w), BeneficiaryUnit))
  {
    var nz := NonZero(values);
    var fs := Products(nz, w);
    forall i | 0 <= i < |fs|
      ensures fs[i] == w[i]
    {
      assert nz[i] == Some(1.0);
    }
    assert fs == w;
    assert AmountTotal(values, w).None? by {
      assert values[0].None?;
    }
  }

  /** Multiplying every weight by k multiplies both unrounded totals by k. */
  lemma TotalsScaleWithWeights(values: seq<Num>, w: seq<Num>, k: real)
    requires |values| == |w|
    ensures AmountTotal(values, ScaleAll(w, k)) == Mul(AmountTotal(values, w), Some(k))
    ensures BeneficiaryTotal(values, ScaleAll(w, k)) == Mul(BeneficiaryTotal(values, w), Some(k))
  {
    ProductsScale(values, w, k);
    ProductsScale(NonZero(values), w, k);
    SumScales(Products(values, w), k);
    SumScales(Products(NonZero(values), w), k);
  }

  lemma ProductsScale(xs: seq<Num>, w: seq<Num>, k: real)
    requires |xs| == |w|
    ensures Products(xs, ScaleAll(w, k)) == ScaleAll(Products(xs, w), k)
  {
    forall i | 0 <= i < |xs|
      ensures Products(xs, ScaleAll(w, k))[i] == ScaleAll(Products(xs, w), k)[i]
    {
      if xs[i].Some? && w[i].Some? {
        var a, b := xs[i].value, w[i].value;
        assert Products(xs, ScaleAll(w, k))[i].value == a * (b * k);
        assert ScaleAll(Products(xs, w), k)[i].value == (a * b) * k == a * (b * k);
      }
    }
  }

  /** Scaling the weights by k scales the beneficiary count by k up to the
      final rounding. */
  lemma BeneficiariesScaleWithWeights(values: seq<Num>, w: seq<Num>, k: real, b: real)
    requires |values| == |w|
    requires BeneficiaryTotal(values, w) == Some(b)
    ensures Reduce(values, ScaleAll(w, k)).beneficiaries.Some?
    ensures -0.5 <= Reduce(values, ScaleAll(w, k)).beneficiaries.value as real - k * b / BeneficiaryUnit <= 0.5
  {
    TotalsScaleWithWeights(values, w, k);
    assert BeneficiaryTotal(values, ScaleAll(w, k)).value == b * k;
  }

  /** A household example: weights [2,3,5], values [100,0,50], filter [1,1,0]
      give 200 for the amount sum and 2 for the beneficiary sum, both 0 once
      scaled and rounded. */
  lemma HouseholdExample()
    ensures Reduce([Some(100.0), Some(0.0), Some(50.0)],
                   WeightVector([Some(2.0), Some(3.0), Some(5.0)], Some([Some(1.0), Some(1.0), Some(0.0)])))
            == Aggregate(Some(0), Some(0))
  {
    var values := [Some(100.0), Some(0.0), Some(50.0)];
    var w := WeightVector([Some(2.0), Some(3.0), Some(5.0)], Some([Some(1.0), Some(1.0), Some(0.0)]));
    assert w == [Some(2.0), Some(3.0), Some(0.0)];
    var ps := Products(values, w);
    assert ps == [Some(200.0), Some(0.0), Some(0.0)];
    SumOfZeros(ps[1..]);
    assert Sum(ps) == Add(Some(200.0), Some(0.0));
    var fs := Products(NonZero(values), w);
    assert fs == [Some(2.0), Some(0.0), Some(0.0)];
    SumOfZeros(fs[1..]);
    assert Sum(fs) == Add(Some(2.0), Some(0.0));
  }
}
