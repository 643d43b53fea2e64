/** `Aggregates.compute_real`, which adds the administrative totals to the
    frame, and `Aggregates.compute_diff`, which compares the current columns
    with a reference pair, as functions of the frame. The class methods that
    run them are in `AggregatesEngine`. */
module Reconciliation {
  import opened Values
  import opened Tables
  import opened Totals

  /** The list `A` (amounts) or `B` (beneficiaries) of compute_real: the loaded
      cell of each variable of `varlist`, NaN for one not in the totals index. */
  function RealCells(vars: seq<string>, totals: Totals, f: Field): (xs: seq<Num>)
    ensures |xs| == |vars|
  {
    seq(|vars|, i requires 0 <= i < |vars| => if vars[i] in totals then Get(totals[vars[i]], f) else None)
  }

  /** `aggr_frame[labels['dep_real']] = A` then `aggr_frame[labels['benef_real']] = B`:
      lists whose length is not the frame's make pandas raise. */
  function WithReal(t: Table, vars: seq<string>, totals: Totals): (r: Result<Table>)
    requires Valid(t)
    ensures r.Ok? <==> |vars| == t.rows
    ensures r.Err? ==> r.failure == LengthMismatch
    ensures r.Ok? ==> Valid(r.value) && r.value.rows == t.rows
  {
    if |vars| != t.rows then Err(LengthMismatch)
    else
      Ok(SetPair(t, DepReal, Numbers(RealCells(vars, totals, AmountColumn)),
                    BenefReal, Numbers(RealCells(vars, totals, BenefColumn))))
  }

  /** The real columns hold, row by row, the loaded amount and beneficiaries
      of the row's variable, or NaN when the totals do not list it. */
  lemma RealColumns(t: Table, vars: seq<string>, totals: Totals)
    requires Valid(t) && WithReal(t, vars, totals).Ok?
    ensures var r := WithReal(t, vars, totals).value;
      && DepReal in r.columns && BenefReal in r.columns
      && r.columns[DepReal].Numbers? && r.columns[BenefReal].Numbers?
      && |r.columns[DepReal].cells| == |vars| && |r.columns[BenefReal].cells| == |vars|
      && forall i :: 0 <= i < |vars| ==>
           && r.columns[DepReal].cells[i] == (if vars[i] in totals then totals[vars[i]].amount else None)
           && r.columns[BenefReal].cells[i] == (if vars[i] in totals then totals[vars[i]].benef else None)
  {
  }

  /** compute_real writes the two real columns and nothing else: the other
      columns keep their contents and place, a new real column goes last. */
  lemma RealKeepsOthers(t: Table, vars: seq<string>, totals: Totals)
    requires Valid(t) && WithReal(t, vars, totals).Ok?
    ensures var r := WithReal(t, vars, totals).value;
      && (forall c :: c != DepReal && c != BenefReal ==>
            (c in r.columns <==> c in t.columns) && (c in t.columns ==> r.columns[c] == t.columns[c]))
      && r.codes == t.codes + Added(t.columns, DepReal)
                            + Added(t.columns, BenefReal)
  {
  }

  /** `dep - ref_dep`, row by row. */
  function AbsDiff(current: Num, reference: Num): (r: Num)
    ensures r.None? <==> current.None? || reference.None?
    ensures r.Some? ==> reference.value + r.value == current.value
  {
    Sub(current, reference)
  }

  /** `(dep - ref_dep)/abs(ref_dep)`, row by row: a zero reference gives an
      infinity or NaN in pandas, a missing cell here. */
  function RelDiff(current: Num, reference: Num): (r: Num)
    ensures r.None? <==> current.None? || reference.None? || reference.value == 0.0
    ensures r.Some? ==> r.value * (if reference.value < 0.0 then -reference.value else reference.value)
                        == current.value - reference.value
  {
    if current.Some? && reference.Some? && reference.value != 0.0 then
      Some((current.value - reference.value) / (if reference.value < 0.0 then -reference.value else reference.value))
    else None
  }

  function AbsDiffs(current: seq<Num>, reference: seq<Num>): (xs: seq<Num>)
    requires |current| == |reference|
    ensures |xs| == |current|
  {
    seq(|current|, i requires 0 <= i < |current| => AbsDiff(current[i], reference[i]))
  }

  function RelDiffs(current: seq<Num>, reference: seq<Num>): (xs: seq<Num>)
    requires |current| == |reference|
    ensures |xs| == |current|
  {
    seq(|current|, i requires 0 <= i < |current| => RelDiff(current[i], reference[i]))
  }

  /** The pair of columns compute_diff compares against: the default pair
      when `show_default` is set (none if the frame lacks it), else the real
      pair when `show_real` is set, else none. */
  function Reference(t: Table, showDefault: bool, showReal: bool): (r: Option<(Code, Code)>)
    ensures r.Some? ==> r.value == (if showDefault then (DepDefault, BenefDefault) else (DepReal, BenefReal))
    ensures r.None? <==> (showDefault && DepDefault !in t.columns) || (!showDefault && !showReal)
  {
    if showDefault then
      if DepDefault in t.columns then Some((DepDefault, BenefDefault)) else None
    else if showReal then Some((DepReal, BenefReal))
    else None
  }

  /** `aggr_frame[labels['dep_diff_rel']] = ...` and the three assignments
      after it: the relative pair (amount, beneficiaries), then the absolute
      pair. */
  function PutDiffs(t: Table, dep: seq<Num>, benef: seq<Num>, refDep: seq<Num>, refBenef: seq<Num>): (r: Table)
    requires Valid(t) && |dep| == |benef| == |refDep| == |refBenef| == t.rows
    ensures Valid(r) && r.rows == t.rows
  {
    var t2 := SetPair(t, DepDiffRel, Numbers(RelDiffs(dep, refDep)), BenefDiffRel, Numbers(RelDiffs(benef, refBenef)));
    SetPair(t2, DepDiffAbs, Numbers(AbsDiffs(dep, refDep)), BenefDiffAbs, Numbers(AbsDiffs(benef, refBenef)))
  }

  /** The four writes of the diffs append each new diff column last, in
      the order they are written. */
  lemma PutDiffsCodes(t: Table, dep: seq<Num>, benef: seq<Num>, refDep: seq<Num>, refBenef: seq<Num>)
    requires Valid(t) && |dep| == |benef| == |refDep| == |refBenef| == t.rows
    ensures PutDiffs(t, dep, benef, refDep, refBenef).codes
      == t.codes + Added(t.columns, DepDiffRel) + Added(t.columns, BenefDiffRel)
                 + Added(t.columns, DepDiffAbs) + Added(t.columns, BenefDiffAbs)
  {
    var t2 := SetPair(t, DepDiffRel, Numbers(RelDiffs(dep, refDep)), BenefDiffRel, Numbers(RelDiffs(benef, refBenef)));
    assert DepDiffAbs in t2.columns <==> DepDiffAbs in t.columns;
    assert BenefDiffAbs in t2.columns <==> BenefDiffAbs in t.columns;
  }

  /** Four writes leave every other column of a frame as it was. */
  lemma FourWritesKeep(m: map<Code, Column>, a: Code, b: Code, c: Code, d: Code,
                       xa: Column, xb: Column, xc: Column, xd: Column, e: Code)
    requires e != a && e != b && e != c && e != d
    ensures var m' := m[a := xa][b := xb][c := xc][d := xd];
      (e in m' <==> e in m) && (e in m ==> m'[e] == m[e])
  {
  }

  /** The four writes of the diffs touch their own columns only. */
  lemma PutDiffsOthers(t: Table, dep: seq<Num>, benef: seq<Num>, refDep: seq<Num>, refBenef: seq<Num>)
    requires Valid(t) && |dep| == |benef| == |refDep| == |refBenef| == t.rows
    ensures var r := PutDiffs(t, dep, benef, refDep, refBenef);
      && r.columns == t.columns[DepDiffRel := Numbers(RelDiffs(dep, refDep))][BenefDiffRel := Numbers(RelDiffs(benef, refBenef))]
                               [DepDiffAbs := Numbers(AbsDiffs(dep, refDep))][BenefDiffAbs := Numbers(AbsDiffs(benef, refBenef))]
      && forall c :: c != DepDiffRel && c != BenefDiffRel && c != DepDiffAbs && c != BenefDiffAbs ==>
           (c in r.columns <==> c in t.columns) && (c in t.columns ==> r.columns[c] == t.columns[c])
  {
    var r := PutDiffs(t, dep, benef, refDep, refBenef);
    forall c | c != DepDiffRel && c != BenefDiffRel && c != DepDiffAbs && c != BenefDiffAbs
      ensures (c in r.columns <==> c in t.columns) && (c in t.columns ==> r.columns[c] == t.columns[c])
    {
      FourWritesKeep(t.columns, DepDiffRel, BenefDiffRel, DepDiffAbs, BenefDiffAbs,
        Numbers(RelDiffs(dep, refDep)), Numbers(RelDiffs(benef, refBenef)),
        Numbers(AbsDiffs(dep, refDep)), Numbers(AbsDiffs(benef, refBenef)), c);
    }
  }

  /** `compute_diff()` on a frame: the current pair is read first, so a frame
      without it raises whatever the flags; then the reference pair, if any,
      is read (a KeyError when absent) and the diff columns are written. */
  function WithDiff(t: Table, showDefault: bool, showReal: bool): (r: Result<Table>)
    requires Valid(t)
    ensures r.Ok? ==> Valid(r.value) && r.value.rows == t.rows
  {
    match GetNumbers(t, Dep)
    case Err(e) => Err(e)
    case Ok(dep) =>
      match GetNumbers(t, Benef)
      case Err(e) => Err(e)
      case Ok(benef) =>
        match Reference(t, showDefault, showReal)
        case None => Ok(t)
        case Some((rd, rb)) =>
          match GetNumbers(t, rd)
          case Err(e) => Err(e)
          case Ok(refDep) =>
            match GetNumbers(t, rb)
            case Err(e) => Err(e)
            case Ok(refBenef) => Ok(PutDiffs(t, dep, benef, refDep, refBenef))
  }

  /** When compute_diff raises: the first column it reads that is missing,
      in the order current amount, current beneficiaries, reference amount,
      reference beneficiaries. */
  lemma DiffFailures(t: Table, showDefault: bool, showReal: bool)
    requires Valid(t)
    ensures var r := WithDiff(t, showDefault, showReal);
      var ref := Reference(t, showDefault, showReal);
      && (Dep !in t.columns ==> r == Err(MissingKey("dep")))
      && (Dep in t.columns && Benef !in t.columns ==> r == Err(MissingKey("benef")))
      && (Dep in t.columns && Benef in t.columns && ref.Some? && ref.value.0 !in t.columns ==> r == Err(MissingKey(Key(ref.value.0))))
      && (Dep in t.columns && Benef in t.columns && ref.Some? && ref.value.0 in t.columns && ref.value.1 !in t.columns ==>
            r == Err(MissingKey(Key(ref.value.1))))
      && (r.Err? <==> Dep !in t.columns || Benef !in t.columns || (ref.Some? && (ref.value.0 !in t.columns || ref.value.1 !in t.columns)))
  {
  }

  /** Without a reference pair compute_diff leaves the frame as it was. */
  lemma DiffWithoutReference(t: Table, showDefault: bool, showReal: bool)
    requires Valid(t) && Dep in t.columns && Benef in t.columns
    requires Reference(t, showDefault, showReal).None?
    ensures WithDiff(t, showDefault, showReal) == Ok(t)
  {
  }

  /** With a reference pair, compute_diff writes the diffs of the current
      pair against it. */
  lemma DiffAgainstReference(t: Table, showDefault: bool, showReal: bool)
    requires Valid(t) && WithDiff(t, showDefault, showReal).Ok?
    requires Reference(t, showDefault, showReal).Some?
    ensures var (rd, rb) := Reference(t, showDefault, showReal).value;
      && Dep in t.columns && Benef in t.columns && rd in t.columns && rb in t.columns
      && WithDiff(t, showDefault, showReal).value
         == PutDiffs(t, t.columns[Dep].cells, t.columns[Benef].cells, t.columns[rd].cells, t.columns[rb].cells)
  {
  }

  /** The diff columns: absolute is current minus reference, relative is that
      difference over the reference's magnitude, row by row. */
  lemma DiffColumns(t: Table, showDefault: bool, showReal: bool)
    requires Valid(t) && WithDiff(t, showDefault, showReal).Ok?
    requires Reference(t, showDefault, showReal).Some?
    ensures var r := WithDiff(t, showDefault, showReal).value;
      var (rd, rb) := Reference(t, showDefault, showReal).value;
      && rd in t.columns && rb in t.columns && Dep in t.columns && Benef in t.columns
      && DepDiffAbs in r.columns && BenefDiffAbs in r.columns && DepDiffRel in r.columns && BenefDiffRel in r.columns
      && r.columns[DepDiffAbs] == Numbers(AbsDiffs(t.columns[Dep].cells, t.columns[rd].cells))
      && r.columns[BenefDiffAbs] == Numbers(AbsDiffs(t.columns[Benef].cells, t.columns[rb].cells))
      && r.columns[DepDiffRel] == Numbers(RelDiffs(t.columns[Dep].cells, t.columns[rd].cells))
      && r.columns[BenefDiffRel] == Numbers(RelDiffs(t.columns[Benef].cells, t.columns[rb].cells))
  {
    DiffAgainstReference(t, showDefault, showReal);
    var (rd, rb) := Reference(t, showDefault, showReal).value;
    PutDiffsOthers(t, t.columns[Dep].cells, t.columns[Benef].cells, t.columns[rd].cells, t.columns[rb].cells);
  }

  /** Only the four diff columns are written; the others keep their contents
      and place, and new diff columns are appended in the order relative
      amount, relative beneficiaries, absolute amount, absolute beneficiaries. */
  lemma DiffKeepsOthers(t: Table, showDefault: bool, showReal: bool)
    requires Valid(t) && WithDiff(t, showDefault, showReal).Ok?
    ensures var r := WithDiff(t, showDefault, showReal).value;
      && (forall c :: c != DepDiffRel && c != BenefDiffRel && c != DepDiffAbs && c != BenefDiffAbs ==>
            (c in r.columns <==> c in t.columns) && (c in t.columns ==> r.columns[c] == t.columns[c]))
      && (Reference(t, showDefault, showReal).Some? ==>
            r.codes == t.codes + Added(t.columns, DepDiffRel)
                               + Added(t.columns, BenefDiffRel)
                               + Added(t.columns, DepDiffAbs)
                               + Added(t.columns, BenefDiffAbs))
      && (Reference(t, showDefault, showReal).None? ==> r == t)
  {
    if Reference(t, showDefault, showReal).Some? {
      DiffAgainstReference(t, showDefault, showReal);
      var (rd, rb) := Reference(t, showDefault, showReal).value;
      PutDiffsCodes(t, t.columns[Dep].cells, t.columns[Benef].cells, t.columns[rd].cells, t.columns[rb].cells);
      PutDiffsOthers(t, t.columns[Dep].cells, t.columns[Benef].cells, t.columns[rd].cells, t.columns[rb].cells);
    } else {
      DiffFailures(t, showDefault, showReal);
      DiffWithoutReference(t, showDefault, showReal);
    }
  }

  /** Swapping the two sides negates the absolute difference. */
  lemma AbsDiffAntisymmetric(a: Num, b: Num)
    ensures AbsDiff(a, b) == Neg(AbsDiff(b, a))
  {
  }

  /** The relative difference is the absolute one over the reference's
      magnitude; it is missing exactly when a side is missing or the
      reference is zero, and it has the sign of the absolute difference. */
  lemma RelDiffIsScaledAbsDiff(a: Num, b: Num)
    ensures RelDiff(a, b).None? <==> AbsDiff(a, b).None? || b == Some(0.0)
    ensures RelDiff(a, b).Some? ==>
      && RelDiff(a, b).value * (if b.value < 0.0 then -b.value else b.value) == AbsDiff(a, b).value
      && (RelDiff(a, b).value > 0.0 <==> AbsDiff(a, b).value > 0.0)
      && (RelDiff(a, b).value < 0.0 <==> AbsDiff(a, b).value < 0.0)
  {
  }

  /** A current cell equal to a finite reference cell has zero differences,
      unless the reference is zero, where the relative one is missing. */
  lemma EqualCellsHaveNoDifference(a: real)
    ensures AbsDiff(Some(a), Some(a)) == Some(0.0)
    ensures a != 0.0 ==> RelDiff(Some(a), Some(a)) == Some(0.0)
    ensures a == 0.0 ==> RelDiff(Some(a), Some(a)).None?
  {
  }
}
