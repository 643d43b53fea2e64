/** The `Aggregates` object: its settings, the loaded totals and the frame,
    and the methods that compute them step by step. Each method is tied to
    the function that specifies it in `Aggregation`, `Totals` or
    `Reconciliation`; the engine, the store and the simulation's year are
    parameters. */
module AggregatesEngine {
  import opened Values
  import opened Simulations
  import opened Tables
  import opened Aggregation
  import opened Totals
  import opened Reconciliation
  import opened Loops

  /** How a method of the object ends: normally, or with the exception that
      escapes it. */
  datatype Outcome = Done | Fail(failure: Failure)

  /** `compute_real()` on the frame, the variable list and the totals: no
      totals leave the frame as it is; otherwise the list is walked first
      (raising when it is not set), then the frame is written (raising when
      there is none). */
  function RealStep(frame: Option<Table>, varlist: Option<seq<string>>, totals: Option<Totals>): (r: Result<Option<Table>>)
    requires frame.Some? ==> Valid(frame.value)
    ensures r.Ok? ==> (r.value.Some? <==> frame.Some?)
    ensures r.Ok? && r.value.Some? ==> Valid(r.value.value) && r.value.value.rows == frame.value.rows
    ensures r.Ok? && totals.Some? ==>
      && varlist.Some? && frame.Some? && |varlist.value| == frame.value.rows
      && DepReal in r.value.value.columns && BenefReal in r.value.value.columns
    ensures totals.Some? && varlist.Some? && frame.Some? ==> (r.Ok? <==> |varlist.value| == frame.value.rows)
    ensures totals.None? ==> r == Ok(frame)
  {
    if totals.None? then Ok(frame)
    else if varlist.None? then Err(NotSet("varlist"))
    else if frame.None? then Err(NotSet("aggr_frame"))
    else
      match WithReal(frame.value, varlist.value, totals.value)
      case Err(e) => Err(e)
      case Ok(t) => RealColumns(frame.value, varlist.value, totals.value); Ok(Some(t))
  }

  /** `compute_diff()` on the frame and the two flags: without a frame the
      first read raises. */
  function DiffStep(frame: Option<Table>, showDefault: bool, showReal: bool): (r: Result<Option<Table>>)
    requires frame.Some? ==> Valid(frame.value)
    ensures r.Ok? ==> frame.Some? && r.value.Some? && Valid(r.value.value) && r.value.value.rows == frame.value.rows
    ensures r.Ok? ==> Dep in frame.value.columns && Benef in frame.value.columns
  {
    if frame.None? then Err(NotSet("aggr_frame"))
    else
      match WithDiff(frame.value, showDefault, showReal)
      case Err(e) => Err(e)
      case Ok(t) => DiffFailures(frame.value, showDefault, showReal); Ok(Some(t))
  }

  /** The body of compute_aggregates once the output table and `varlist`
      are there: the loop over `varlist`, the items, and the loop over
      `labels` that joins them into the frame. */
  method BuildTable(sim: Simulation, vars: seq<string>, filterBy: Option<string>) returns (r: Result<Table>)
    requires Aligned(sim) && sim.hasOutputTable
    ensures r == AggregateTable(sim, Some(vars), filterBy)
  {
    var collected := CollectLists(sim, vars, filterBy);
    if collected.Err? {
      return Err(collected.failure);
    }
    ghost var rows := CollectRows(sim, vars, filterBy).value;
    AggregateTableOfRows(sim, vars, filterBy, rows);
    ListsOfRows(rows);
    var l := collected.value;
    var n := |l.labels|;
    if l.defaultAmounts != [] && |l.defaultAmounts| != n {
      return Err(LengthMismatch);
    }
    var items := BuildItems(l, rows);
    var t := ArrangeColumns(n, items);
    return Ok(t);
  }

  /** The body of compute_diff on a frame: read the current pair, choose the
      reference pair from the flags, read it, and write the relative then
      the absolute diffs. */
  method DiffTable(t: Table, showDefault: bool, showReal: bool) returns (r: Result<Table>)
    requires Valid(t)
    ensures r == WithDiff(t, showDefault, showReal)
  {
    var dep := GetNumbers(t, Dep);
    if dep.Err? {
      return Err(dep.failure);
    }
    var benef := GetNumbers(t, Benef);
    if benef.Err? {
      return Err(benef.failure);
    }
    var refDepCode, refBenefCode;
    if showDefault {
      refDepCode, refBenefCode := DepDefault, BenefDefault;
      if DepDefault !in t.columns {
        return Ok(t);
      }
    } else if showReal {
      refDepCode, refBenefCode := DepReal, BenefReal;
    } else {
      return Ok(t);
    }
    var refDep := GetNumbers(t, refDepCode);
    if refDep.Err? {
      return Err(refDep.failure);
    }
    var refBenef := GetNumbers(t, refBenefCode);
    if refBenef.Err? {
      return Err(refBenef.failure);
    }
    var t' := WriteDiffs(t, dep.value, benef.value, refDep.value, refBenef.value);
    return Ok(t');
  }

  /** The four assignments that end compute_diff: relative amount, relative
      beneficiaries, absolute amount, absolute beneficiaries. */
  method WriteDiffs(t: Table, dep: seq<Num>, benef: seq<Num>, refDep: seq<Num>, refBenef: seq<Num>) returns (t': Table)
    requires Valid(t) && |dep| == |benef| == |refDep| == |refBenef| == t.rows
    ensures t' == PutDiffs(t, dep, benef, refDep, refBenef)
  {
    t' := SetColumn(t, DepDiffRel, Numbers(RelDiffs(dep, refDep)));
    t' := SetColumn(t', BenefDiffRel, Numbers(RelDiffs(benef, refBenef)));
    t' := SetColumn(t', DepDiffAbs, Numbers(AbsDiffs(dep, refDep)));
    t' := SetColumn(t', BenefDiffAbs, Numbers(AbsDiffs(benef, refBenef)));
  }

  class Aggregates {
    /** `varlist`: the variables to aggregate, `None` until set. */
    var varlist: Option<seq<string>>
    /** `filter_by`: the filtering variable, `None` for none. */
    var filterBy: Option<string>
    /** `show_default`: compare against the default data. */
    var showDefault: bool
    /** `show_real`: compare against the administrative totals. */
    var showReal: bool
    /** `totals_df`: the administrative totals, `None` when not loaded. */
    var totals: Option<Totals>
    /** `aggr_frame`: the table, `None` until compute_aggregates has run. */
    var aggrFrame: Option<Table>

    /** A frame, when there is one, is well formed. */
    ghost predicate Valid()
      reads this
    {
      aggrFrame.Some? ==> Tables.Valid(aggrFrame.value)
    }

    /** The class attributes' initial values. */
    constructor ()
      ensures Valid()
      ensures varlist == None && filterBy == None && totals == None && aggrFrame == None
      ensures !showDefault && showReal
    {
      varlist := None;
      filterBy := None;
      showDefault := false;
      showReal := true;
      totals := None;
      aggrFrame := None;
    }

    /** `set_var_list(var_list)`. */
    method SetVarList(vars: seq<string>)
      modifies this
      ensures varlist == Some(vars)
      ensures filterBy == old(filterBy) && showDefault == old(showDefault) && showReal == old(showReal)
      ensures totals == old(totals) && aggrFrame == old(aggrFrame)
    {
      varlist := Some(vars);
    }

    /** `set_filter_by(varname)`. */
    method SetFilterBy(name: Option<string>)
      modifies this
      ensures filterBy == name
      ensures varlist == old(varlist) && showDefault == old(showDefault) && showReal == old(showReal)
      ensures totals == old(totals) && aggrFrame == old(aggrFrame)
    {
      filterBy := name;
    }

    /** `clear()`: forgets the loaded totals. */
    method Clear()
      modifies this
      ensures totals == None
      ensures varlist == old(varlist) && filterBy == old(filterBy)
      ensures showDefault == old(showDefault) && showReal == old(showReal) && aggrFrame == old(aggrFrame)
    {
      totals := None;
    }

    /** `compute_aggregates(filter_by)`: on success the frame is the table of
      `AggregateTable`; on failure the exception escapes before the frame is
      replaced. */
    method ComputeAggregates(sim: Simulation, filter: Option<string>) returns (outcome: Outcome)
      requires Valid() && Aligned(sim)
      modifies this
      ensures Valid()
      ensures varlist == old(varlist) && filterBy == old(filterBy) && showDefault == old(showDefault)
      ensures showReal == old(showReal) && totals == old(totals)
      ensures var spec := AggregateTable(sim, old(varlist), filter);
        && (spec.Ok? ==> outcome == Done && aggrFrame == Some(spec.value))
        && (spec.Err? ==> outcome == Fail(spec.failure) && aggrFrame == old(aggrFrame))
    {
      if !sim.hasOutputTable {
        return Fail(NoOutputTable);
      }
      if varlist.None? {
        return Fail(NotSet("varlist"));
      }
      var r := BuildTable(sim, varlist.value, filter);
      if r.Err? {
        return Fail(r.failure);
      }
      aggrFrame := Some(r.value);
      return Done;
    }

    /** `load_amounts_from_file(filename, year)`: the totals become those
      `LoadTotals` derives, `None` whenever the load or the derivation fails. */
    method LoadAmountsFromFile(store: Option<Store>, filenameGiven: bool, year: Option<int>, simulationYear: int)
      modifies this
      ensures totals == LoadTotals(store, filenameGiven, year, simulationYear)
      ensures varlist == old(varlist) && filterBy == old(filterBy) && showDefault == old(showDefault)
      ensures showReal == old(showReal) && aggrFrame == old(aggrFrame)
    {
      var y := if year.Some? then year.value else simulationYear;
      if filenameGiven || store.None? || y !in store.value.amounts || y !in store.value.benef {
        totals := None;
        return;
      }
      var t := Raw(store.value.amounts[y], store.value.benef[y]);
      ghost var raw := t;
      var columns := [AmountColumn, BenefColumn];
      for i := 0 to 2
        invariant unchanged(this)
        invariant i == 0 ==> t == raw
        invariant i == 1 ==> DeriveColumn(raw, AmountColumn) == Ok(t)
        invariant i == 2 ==> Derive(raw) == Ok(t)
      {
        var r := DerivePass(t, columns[i]);
        if r.Err? {
          totals := None;
          return;
        }
        t := r.value;
      }
      totals := Some(t);
    }

    /** `compute_real()`: the frame becomes what `RealStep` gives; on failure
      it is left as it was. */
    method ComputeReal() returns (outcome: Outcome)
      requires Valid()
      modifies this
      ensures Valid()
      ensures varlist == old(varlist) && filterBy == old(filterBy) && showDefault == old(showDefault)
      ensures showReal == old(showReal) && totals == old(totals)
      ensures var spec := RealStep(old(aggrFrame), old(varlist), old(totals));
        && (spec.Ok? ==> outcome == Done && aggrFrame == spec.value)
        && (spec.Err? ==> outcome == Fail(spec.failure) && aggrFrame == old(aggrFrame))
    {
      if totals.None? {
        return Done;
      }
      if varlist.None? {
        return Fail(NotSet("varlist"));
      }
      var a, b := RealLists(varlist.value, totals.value);
      if aggrFrame.None? {
        return Fail(NotSet("aggr_frame"));
      }
      var t := aggrFrame.value;
      if |a| != t.rows {
        return Fail(LengthMismatch);
      }
      t := SetColumn(t, DepReal, Numbers(a));
      t := SetColumn(t, BenefReal, Numbers(b));
      aggrFrame := Some(t);
      return Done;
    }

    /** `compute_diff()`: the frame becomes what `DiffStep` gives; on failure
      it is left as it was. */
    method ComputeDiff() returns (outcome: Outcome)
      requires Valid()
      modifies this
      ensures Valid()
      ensures varlist == old(varlist) && filterBy == old(filterBy) && showDefault == old(showDefault)
      ensures showReal == old(showReal) && totals == old(totals)
      ensures var spec := DiffStep(old(aggrFrame), old(showDefault), old(showReal));
        && (spec.Ok? ==> outcome == Done && aggrFrame == spec.value)
        && (spec.Err? ==> outcome == Fail(spec.failure) && aggrFrame == old(aggrFrame))
    {
      if aggrFrame.None? {
        return Fail(NotSet("aggr_frame"));
      }
      var r := DiffTable(aggrFrame.value, showDefault, showReal);
      if r.Err? {
        return Fail(r.failure);
      }
      aggrFrame := Some(r.value);
      return Done;
    }

    /** `compute()`: the aggregates with the object's filter, then the totals
      of the simulation's year from the store, then the real columns, then
      the diffs; the first exception stops the sequence and escapes, leaving
      what the earlier steps wrote. */
    method Compute(sim: Simulation, store: Option<Store>, simulationYear: int) returns (outcome: Outcome)
      requires Valid() && Aligned(sim)
      modifies this
      ensures Valid()
      ensures varlist == old(varlist) && filterBy == old(filterBy)
      ensures showDefault == old(showDefault) && showReal == old(showReal)
      ensures var agg := AggregateTable(sim, old(varlist), old(filterBy));
        && (agg.Err? ==> outcome == Fail(agg.failure) && aggrFrame == old(aggrFrame) && totals == old(totals))
        && (agg.Ok? ==> totals == LoadTotals(store, false, None, simulationYear))
      ensures var agg := AggregateTable(sim, old(varlist), old(filterBy));
        agg.Ok? ==>
          var withReal := RealStep(Some(agg.value), old(varlist), totals);
          && (withReal.Err? ==> outcome == Fail(withReal.failure) && aggrFrame == Some(agg.value))
          && (withReal.Ok? ==>
                var diff := DiffStep(withReal.value, old(showDefault), old(showReal));
                && (diff.Err? ==> outcome == Fail(diff.failure) && aggrFrame == withReal.value)
                && (diff.Ok? ==> outcome == Done && aggrFrame == diff.value))
    {
      outcome := ComputeAggregates(sim, filterBy);
      if outcome.Fail? {
        return;
      }
      LoadAmountsFromFile(store, false, None, simulationYear);
      outcome := ComputeReal();
      if outcome.Fail? {
        return;
      }
      outcome := ComputeDiff();
    }
  }

  /** With the class's default flags (`show_default` off, `show_real` on) and
      no totals loaded, compute_real leaves the frame as compute_aggregates
      made it, and compute_diff then raises: on the missing real amount
      column, or on the missing current amount column when `varlist` is
      empty. */
  lemma DefaultFlagsWithoutTotals(sim: Simulation, vars: seq<string>, filterBy: Option<string>, t: Table)
    requires Aligned(sim)
    requires AggregateTable(sim, Some(vars), filterBy) == Ok(t)
    ensures Valid(t)
    ensures RealStep(Some(t), Some(vars), None) == Ok(Some(t))
    ensures DiffStep(Some(t), false, true) == Err(MissingKey(Key(if |vars| == 0 then Dep else DepReal)))
  {
    AggregateTableFrame(sim, vars, filterBy, t);
    DiffFailures(t, false, true);
    if |vars| == 0 {
      assert Dep !in t.columns;
    } else {
      assert Dep in t.columns && Benef in t.columns && DepReal !in t.columns;
    }
  }

  /** On a frame with none of the later columns, compute_real appends the
      real pair. */
  lemma RealAppends(t: Table, vars: seq<string>, totals: Totals)
    requires Valid(t) && t.rows == |vars| && NoLaterColumns(t.columns)
    ensures WithReal(t, vars, totals).Ok?
    ensures var r := WithReal(t, vars, totals).value;
      && r.codes == t.codes + [DepReal, BenefReal]
      && DepReal in r.columns && BenefReal in r.columns
      && (forall c :: c != DepReal && c != BenefReal ==> (c in r.columns <==> c in t.columns))
  {
    RealKeepsOthers(t, vars, totals);
    AppendTwo(t.codes, DepReal, BenefReal);
  }

  /** On a frame with the current and real pairs and no diff column, compute_diff
      under the default flags appends the four diff columns. */
  lemma DiffAppends(r: Table)
    requires Valid(r) && Dep in r.columns && Benef in r.columns && DepReal in r.columns && BenefReal in r.columns
    requires DepDiffRel !in r.columns && BenefDiffRel !in r.columns && DepDiffAbs !in r.columns && BenefDiffAbs !in r.columns
    ensures WithDiff(r, false, true).Ok?
    ensures WithDiff(r, false, true).value.codes == r.codes + [DepDiffRel, BenefDiffRel, DepDiffAbs, BenefDiffAbs]
  {
    DiffFailures(r, false, true);
    DiffKeepsOthers(r, false, true);
    AppendFour(r.codes, DepDiffRel, BenefDiffRel, DepDiffAbs, BenefDiffAbs);
  }

  /** On a frame with the current pair and none of the later columns, the
      real pair and then the four diff columns are appended, in the order
      they are written. */
  lemma RealThenDiffCodes(t: Table, vars: seq<string>, totals: Totals)
    requires Valid(t) && t.rows == |vars| && NoLaterColumns(t.columns)
    requires Dep in t.columns && Benef in t.columns
    ensures WithReal(t, vars, totals).Ok?
    ensures var r := WithReal(t, vars, totals).value;
      && WithDiff(r, false, true).Ok?
      && WithDiff(r, false, true).value.codes == t.codes + [DepReal, BenefReal, DepDiffRel, BenefDiffRel, DepDiffAbs, BenefDiffAbs]
  {
    RealAppends(t, vars, totals);
    var r := WithReal(t, vars, totals).value;
    DiffAppends(r);
    AppendSix(t.codes, DepReal, BenefReal, DepDiffRel, BenefDiffRel, DepDiffAbs, BenefDiffAbs);
  }

  /** With the default flags and totals loaded, compute on a non-empty
      `varlist` appends the real pair and then the four diff columns to the
      aggregate table, in that order, which is not the order of `labels`
      (the relative diffs come before the absolute ones). */
  lemma DefaultFlagsWithTotalsColumns(sim: Simulation, vars: seq<string>, filterBy: Option<string>, t: Table, totals: Totals)
    requires Aligned(sim)
    requires AggregateTable(sim, Some(vars), filterBy) == Ok(t) && |vars| > 0
    ensures Valid(t)
    ensures RealStep(Some(t), Some(vars), Some(totals)).Ok? && RealStep(Some(t), Some(vars), Some(totals)).value.Some?
    ensures var f := DiffStep(RealStep(Some(t), Some(vars), Some(totals)).value, false, true);
      && f.Ok? && f.value.Some?
      && f.value.value.codes == t.codes + [DepReal, BenefReal, DepDiffRel, BenefDiffRel, DepDiffAbs, BenefDiffAbs]
      && !InLabelOrder(f.value.value.codes)
  {
    AggregateTableFrame(sim, vars, filterBy, t);
    RealThenDiffCodes(t, vars, totals);
    DiffsOutOfOrder(t.codes);
  }

  /** Whatever precedes them, the real pair followed by the diffs as
      compute_diff writes them is not in the order of `labels`. */
  lemma DiffsOutOfOrder(s: seq<Code>)
    ensures !InLabelOrder(s + [DepReal, BenefReal, DepDiffRel, BenefDiffRel, DepDiffAbs, BenefDiffAbs])
  {
    var codes := s + [DepReal, BenefReal, DepDiffRel, BenefDiffRel, DepDiffAbs, BenefDiffAbs];
    assert codes[|s| + 3] == BenefDiffRel && codes[|s| + 4] == DepDiffAbs;
  }

  /** With the default flags and totals loaded, the diff columns compare the
      current pair with the loaded totals of each row's variable: the
      absolute diff is current minus loaded, the relative one that over the
      loaded value's magnitude. */
  lemma DefaultFlagsWithTotalsDiffs(sim: Simulation, vars: seq<string>, filterBy: Option<string>, t: Table, totals: Totals)
    requires Aligned(sim)
    requires AggregateTable(sim, Some(vars), filterBy) == Ok(t) && |vars| > 0
    ensures Valid(t) && Dep in t.columns && Benef in t.columns
    ensures t.columns[Dep].Numbers? && t.columns[Benef].Numbers?
    ensures |t.columns[Dep].cells| == |vars| && |t.columns[Benef].cells| == |vars|
    ensures RealStep(Some(t), Some(vars), Some(totals)).Ok? && RealStep(Some(t), Some(vars), Some(totals)).value.Some?
    ensures var f := DiffStep(RealStep(Some(t), Some(vars), Some(totals)).value, false, true);
      var dep, benef := t.columns[Dep].cells, t.columns[Benef].cells;
      var realDep, realBenef := RealCells(vars, totals, AmountColumn), RealCells(vars, totals, BenefColumn);
      && f.Ok? && f.value.Some?
      && DepDiffAbs in f.value.value.columns && BenefDiffAbs in f.value.value.columns
      && DepDiffRel in f.value.value.columns && BenefDiffRel in f.value.value.columns
      && f.value.value.columns[DepDiffAbs] == Numbers(AbsDiffs(dep, realDep))
      && f.value.value.columns[BenefDiffAbs] == Numbers(AbsDiffs(benef, realBenef))
      && f.value.value.columns[DepDiffRel] == Numbers(RelDiffs(dep, realDep))
      && f.value.value.columns[BenefDiffRel] == Numbers(RelDiffs(benef, realBenef))
  {
    AggregateTableRows(sim, vars, filterBy, t);
    var r := WithReal(t, vars, totals).value;
    RealColumns(t, vars, totals);
    DiffFailures(r, false, true);
    DiffColumns(r, false, true);
  }
}
