/** `Aggregates.compute_aggregates` as a function of the engine, the variable
    list and the filtering variable: one row per variable, then the frame
    laid out in the order of `labels`. The class method that runs it as a loop
    is `AggregatesEngine.Aggregates.ComputeAggregates`. */
module Aggregation {
  import opened Values
  import opened Reducer
  import opened Simulations
  import opened Tables

  /** What one pass of the loop over `varlist` appends: the label to `V`, the
      entity to `U`, and the amount and beneficiaries of each dataset to `M`
      and `B`. */
  datatype Row = Row(name: string, entity: string, aggregate: VarAggregate)

  /** `get_col(var).entity`, or 'NA' when the lookup raises. */
  function EntityOrNA(sim: Simulation, v: string): string {
    if v in sim.entities then sim.entities[v] else "NA"
  }

  /** One pass of the loop: `get_aggregate` first, then `var2label[var]`, then
      the guarded entity lookup. Since get_aggregate already looked the entity
      up unguarded, a row that is produced never carries the 'NA' fallback. */
  function RowFor(sim: Simulation, v: string, filterBy: Option<string>): (r: Result<Row>)
    requires Aligned(sim)
    ensures r.Ok? <==> Resolvable(sim, v, filterBy) && v in sim.labels
    ensures r.Ok? ==> r.value.name == sim.labels[v] && r.value.entity == sim.entities[v]
                      && r.value.aggregate == GetAggregate(sim, v, filterBy).value
  {
    match GetAggregate(sim, v, filterBy)
    case Err(e) => Err(e)
    case Ok(a) => if v !in sim.labels then Err(MissingKey(v)) else Ok(Row(sim.labels[v], EntityOrNA(sim, v), a))
  }

  /** The loop over `varlist` of compute_aggregates: the rows when every
      pass goes through, else the failure of the first one that does not. */
  function CollectRows(sim: Simulation, vars: seq<string>, filterBy: Option<string>): (r: Result<seq<Row>>)
    requires Aligned(sim)
    ensures r.Ok? ==> |r.value| == |vars| && forall i :: 0 <= i < |vars| ==> RowFor(sim, vars[i], filterBy) == Ok(r.value[i])
    ensures r.Err? ==> exists i :: 0 <= i < |vars| && RowFor(sim, vars[i], filterBy) == Err(r.failure)
    decreases |vars|
  {
    if vars == [] then Ok([])
    else
      var init := vars[..|vars| - 1];
      assert forall i :: 0 <= i < |init| ==> init[i] == vars[i];
      match CollectRows(sim, init, filterBy)
      case Err(e) => Err(e)
      case Ok(rows) =>
        match RowFor(sim, vars[|vars| - 1], filterBy)
        case Err(e) => Err(e)
        case Ok(x) => Ok(rows + [x])
  }

  /** What each pass of the loop over `varlist` gives, in order. */
  function RowResults(sim: Simulation, vars: seq<string>, filterBy: Option<string>): (rs: seq<Result<Row>>)
    requires Aligned(sim)
    ensures |rs| == |vars| && forall i :: 0 <= i < |vars| ==> rs[i] == RowFor(sim, vars[i], filterBy)
  {
    if vars == [] then []
    else RowResults(sim, vars[..|vars| - 1], filterBy) + [RowFor(sim, vars[|vars| - 1], filterBy)]
  }

  /** Passes taken in order: the rows when every pass goes through, else the
      failure of the first one that does not. */
  function Gather(rs: seq<Result<Row>>): Result<seq<Row>> {
    if rs == [] then Ok([])
    else
      match Gather(rs[..|rs| - 1])
      case Err(e) => Err(e)
      case Ok(rows) =>
        match rs[|rs| - 1]
        case Err(e) => Err(e)
        case Ok(row) => Ok(rows + [row])
  }

  /** Gathering goes through exactly when every pass does, and then keeps
      every row, in order. */
  lemma {:induction false} GatherSpec(rs: seq<Result<Row>>)
    ensures Gather(rs).Ok? <==> forall i :: 0 <= i < |rs| ==> rs[i].Ok?
    ensures Gather(rs).Ok? ==> |Gather(rs).value| == |rs| && forall i :: 0 <= i < |rs| ==> Gather(rs).value[i] == rs[i].value
  {
    if rs != [] {
      var init := rs[..|rs| - 1];
      assert forall i :: 0 <= i < |init| ==> init[i] == rs[i];
      GatherSpec(init);
    }
  }

  /** Gathering fails with the failure of the first pass that fails. */
  lemma {:induction false} GatherFirstFailure(rs: seq<Result<Row>>)
    requires Gather(rs).Err?
    ensures exists k :: 0 <= k < |rs| && rs[k] == Err(Gather(rs).failure) && forall j :: 0 <= j < k ==> rs[j].Ok?
  {
    var init := rs[..|rs| - 1];
    assert forall i :: 0 <= i < |init| ==> init[i] == rs[i];
    if Gather(init).Err? {
      GatherFirstFailure(init);
      var k :| 0 <= k < |init| && init[k] == Err(Gather(init).failure) && forall j :: 0 <= j < k ==> init[j].Ok?;
      assert rs[k] == Err(Gather(rs).failure);
    } else {
      GatherSpec(init);
      assert rs[|rs| - 1] == Err(Gather(rs).failure);
    }
  }

  /** The loop is the passes over `varlist` gathered in order. */
  lemma {:induction false} CollectRowsIsGather(sim: Simulation, vars: seq<string>, filterBy: Option<string>)
    requires Aligned(sim)
    ensures CollectRows(sim, vars, filterBy) == Gather(RowResults(sim, vars, filterBy))
    decreases |vars|
  {
    if vars != [] {
      var init := vars[..|vars| - 1];
      CollectRowsIsGather(sim, init, filterBy);
      var rs := RowResults(sim, vars, filterBy);
      assert rs[..|rs| - 1] == RowResults(sim, init, filterBy);
    }
  }

  /** The loop goes through exactly when every variable does, and then
      holds one row per variable, in `varlist` order. */
  lemma CollectRowsSpec(sim: Simulation, vars: seq<string>, filterBy: Option<string>)
    requires Aligned(sim)
    ensures var r := CollectRows(sim, vars, filterBy);
      && (r.Ok? <==> forall i :: 0 <= i < |vars| ==> RowFor(sim, vars[i], filterBy).Ok?)
      && (r.Ok? ==> |r.value| == |vars| && forall i :: 0 <= i < |vars| ==> r.value[i] == RowFor(sim, vars[i], filterBy).value)
  {
    CollectRowsIsGather(sim, vars, filterBy);
    GatherSpec(RowResults(sim, vars, filterBy));
  }

  /** The first variable that fails aborts the whole loop with its exception. */
  lemma FirstFailureAborts(sim: Simulation, vars: seq<string>, filterBy: Option<string>)
    requires Aligned(sim)
    requires CollectRows(sim, vars, filterBy).Err?
    ensures exists k :: 0 <= k < |vars| && RowFor(sim, vars[k], filterBy) == Err(CollectRows(sim, vars, filterBy).failure)
                        && forall j :: 0 <= j < k ==> RowFor(sim, vars[j], filterBy).Ok?
  {
    CollectRowsIsGather(sim, vars, filterBy);
    GatherFirstFailure(RowResults(sim, vars, filterBy));
  }

  /** The list `V`. */
  function Labels(rows: seq<Row>): (names: seq<string>)
    ensures |names| == |rows| && forall i :: 0 <= i < |rows| ==> names[i] == rows[i].name
  {
    if rows == [] then [] else Labels(rows[..|rows| - 1]) + [rows[|rows| - 1].name]
  }

  /** The list `U`. */
  function Entities(rows: seq<Row>): (names: seq<string>)
    ensures |names| == |rows| && forall i :: 0 <= i < |rows| ==> names[i] == rows[i].entity
  {
    if rows == [] then [] else Entities(rows[..|rows| - 1]) + [rows[|rows| - 1].entity]
  }

  /** The list `M['data']`. */
  function Amounts(rows: seq<Row>): (cells: seq<Num>)
    ensures |cells| == |rows|
    ensures forall i :: 0 <= i < |rows| ==> cells[i] == FromInt(rows[i].aggregate.current.amount)
  {
    if rows == [] then [] else Amounts(rows[..|rows| - 1]) + [FromInt(rows[|rows| - 1].aggregate.current.amount)]
  }

  /** The list `B['data']`. */
  function Beneficiaries(rows: seq<Row>): (cells: seq<Num>)
    ensures |cells| == |rows|
    ensures forall i :: 0 <= i < |rows| ==> cells[i] == FromInt(rows[i].aggregate.current.beneficiaries)
  {
    if rows == [] then [] else Beneficiaries(rows[..|rows| - 1]) + [FromInt(rows[|rows| - 1].aggregate.current.beneficiaries)]
  }

  /** Every row has a 'default' entry. */
  ghost predicate AllDefault(rows: seq<Row>) {
    forall i :: 0 <= i < |rows| ==> rows[i].aggregate.default.Some?
  }

  /** No row has a 'default' entry. */
  ghost predicate NoDefault(rows: seq<Row>) {
    forall i :: 0 <= i < |rows| ==> rows[i].aggregate.default.None?
  }

  /** The list `M['default']`: only the rows that have a 'default' entry
      append to it. */
  function DefaultAmounts(rows: seq<Row>): (cells: seq<Num>)
    ensures |cells| <= |rows|
    ensures |cells| == |rows| <==> AllDefault(rows)
    ensures cells == [] <==> NoDefault(rows)
    ensures AllDefault(rows) ==> forall i :: 0 <= i < |rows| ==> cells[i] == FromInt(rows[i].aggregate.default.value.amount)
  {
    if rows == [] then []
    else
      var init := rows[..|rows| - 1];
      var last := rows[|rows| - 1];
      assert forall i :: 0 <= i < |init| ==> init[i] == rows[i];
      DefaultAmounts(init) + (if last.aggregate.default.Some? then [FromInt(last.aggregate.default.value.amount)] else [])
  }

  /** The list `B['default']`, appended in step with `M['default']`. */
  function DefaultBeneficiaries(rows: seq<Row>): (cells: seq<Num>)
    ensures |cells| == |DefaultAmounts(rows)|
    ensures AllDefault(rows) ==> forall i :: 0 <= i < |rows| ==> cells[i] == FromInt(rows[i].aggregate.default.value.beneficiaries)
  {
    if rows == [] then []
    else
      var init := rows[..|rows| - 1];
      var last := rows[|rows| - 1];
      assert forall i :: 0 <= i < |init| ==> init[i] == rows[i];
      DefaultBeneficiaries(init) + (if last.aggregate.default.Some? then [FromInt(last.aggregate.default.value.beneficiaries)] else [])
  }

  /** None of the columns added after compute_aggregates is there yet. */
  ghost predicate NoLaterColumns(m: map<Code, Column>) {
    DepReal !in m && BenefReal !in m && DepDiffAbs !in m
    && BenefDiffAbs !in m && DepDiffRel !in m && BenefDiffRel !in m
  }

  lemma EarlyKeysOnly(m: map<Code, Column>)
    requires forall c :: c in m ==> Rank(c) < 6
    ensures NoLaterColumns(m)
  {
  }

  /** Columns of `rows` cells each, text exactly under 'var' and 'entity'. */
  ghost predicate Shaped(m: map<Code, Column>, rows: nat) {
    forall c :: c in m ==> Length(m[c]) == rows && (m[c].Text? <==> IsText(c))
  }

  /** The labels and entities, then the current pair when it is non-empty. */
  function CurrentColumns(rows: seq<Row>): (m: map<Code, Column>)
    ensures Var in m && m[Var] == Text(Labels(rows))
    ensures Entity in m && m[Entity] == Text(Entities(rows))
    ensures (Dep in m <==> rows != []) && (Benef in m <==> rows != [])
    ensures rows != [] ==> m[Dep] == Numbers(Amounts(rows)) && m[Benef] == Numbers(Beneficiaries(rows))
    ensures forall c :: c in m ==> Rank(c) < 4
  {
    var named := map[Var := Text(Labels(rows)), Entity := Text(Entities(rows))];
    if rows == [] then named
    else named[Dep := Numbers(Amounts(rows))][Benef := Numbers(Beneficiaries(rows))]
  }

  /** The columns `DataFrame.from_items(items)` receives when the lists
      agree: labels, each dataset whose amount list is non-empty, and
      entities. */
  function ItemColumns(rows: seq<Row>): map<Code, Column> {
    if DefaultAmounts(rows) == [] then CurrentColumns(rows)
    else CurrentColumns(rows)[DepDefault := Numbers(DefaultAmounts(rows))][BenefDefault := Numbers(DefaultBeneficiaries(rows))]
  }

  /** `DataFrame.from_items(items)`: lists of unequal lengths make it raise. */
  function Items(rows: seq<Row>): (r: Result<map<Code, Column>>)
    ensures r.Ok? <==> NoDefault(rows) || AllDefault(rows)
    ensures r.Ok? ==> r.value == ItemColumns(rows)
    ensures r.Err? ==> r.failure == LengthMismatch
  {
    var defaults := DefaultAmounts(rows);
    if defaults == [] || |defaults| == |rows| then Ok(ItemColumns(rows)) else Err(LengthMismatch)
  }

  /** The items agree with the current columns on the first four keys of
      `labels` and hold nothing past the default pair. */
  lemma ItemsExtendCurrent(rows: seq<Row>)
    ensures forall c :: Rank(c) < 4 ==> (c in ItemColumns(rows) <==> c in CurrentColumns(rows))
    ensures forall c :: Rank(c) < 4 && c in ItemColumns(rows) ==> ItemColumns(rows)[c] == CurrentColumns(rows)[c]
    ensures forall c :: c in ItemColumns(rows) ==> Rank(c) < 6
  {
    var cur := CurrentColumns(rows);
    var m := ItemColumns(rows);
    forall c
      ensures Rank(c) < 4 ==> (c in m <==> c in cur) && (c in m ==> m[c] == cur[c])
      ensures c in m ==> Rank(c) < 6
    {
      if DefaultAmounts(rows) != [] && Rank(c) < 4 {
        assert c != DepDefault && c != BenefDefault;
      }
    }
  }

  /** No column past the default pair is among the items. */
  lemma ItemsKeys(rows: seq<Row>)
    ensures NoLaterColumns(ItemColumns(rows))
  {
    ItemsExtendCurrent(rows);
    EarlyKeysOnly(ItemColumns(rows));
  }

  /** The 'var' and 'entity' columns hold the labels and entities, row by row. */
  lemma ItemsTextColumns(rows: seq<Row>)
    ensures var m := ItemColumns(rows);
      Var in m && m[Var] == Text(Labels(rows)) && Entity in m && m[Entity] == Text(Entities(rows))
  {
    ItemsExtendCurrent(rows);
    assert Rank(Var) < 4 && Rank(Entity) < 4;
  }

  /** The current pair is there exactly when there are rows. */
  lemma ItemsCurrentColumns(rows: seq<Row>)
    ensures var m := ItemColumns(rows);
      && (Dep in m <==> rows != []) && (Benef in m <==> rows != [])
      && (rows != [] ==> m[Dep] == Numbers(Amounts(rows)) && m[Benef] == Numbers(Beneficiaries(rows)))
  {
    ItemsExtendCurrent(rows);
    assert Rank(Dep) < 4 && Rank(Benef) < 4;
  }

  /** Every column of the items is one cell per row. */
  lemma ItemsShaped(rows: seq<Row>)
    requires NoDefault(rows) || AllDefault(rows)
    ensures Shaped(ItemColumns(rows), |rows|)
  {
    var m := ItemColumns(rows);
    forall c | c in m
      ensures Length(m[c]) == |rows| && (m[c].Text? <==> IsText(c))
    {
      if c == Var || c == Entity {
        ItemsTextColumns(rows);
      } else if c == Dep || c == Benef {
        ItemsCurrentColumns(rows);
      } else {
        ItemsExtendCurrent(rows);
        assert c == DepDefault || c == BenefDefault;
        ItemsDefaultColumns(rows);
      }
    }
  }

  /** The default pair is there exactly when every row has a 'default' entry. */
  lemma ItemsDefaultColumns(rows: seq<Row>)
    ensures var m := ItemColumns(rows);
      && (DepDefault in m <==> DefaultAmounts(rows) != [])
      && (BenefDefault in m <==> DepDefault in m)
      && (DepDefault in m ==>
           m[DepDefault] == Numbers(DefaultAmounts(rows)) && m[BenefDefault] == Numbers(DefaultBeneficiaries(rows)))
  {
  }

  /** The frame the loop over `labels` assembles from the items: the same
      columns, in the order of `labels`. */
  function Arrange(rows: nat, m: map<Code, Column>): (t: Table)
    requires Shaped(m, rows)
    ensures Valid(t) && InLabelOrder(t.codes) && t.rows == rows && t.columns == m
  {
    PresentKeepsOrder(12, m.Keys);
    PresentMembers(12, m.Keys);
    Table(rows, Present(12, m.Keys), m)
  }

  /** `compute_aggregates(filter_by)` on the engine `sim`. */
  function AggregateTable(sim: Simulation, varlist: Option<seq<string>>, filterBy: Option<string>): (r: Result<Table>)
    requires Aligned(sim)
    ensures r.Ok? ==> varlist.Some? && Valid(r.value) && r.value.rows == |varlist.value|
    ensures r.Err? ==>
      || r.failure == NoOutputTable
      || r.failure == NotSet("varlist")
      || r.failure == LengthMismatch
      || (varlist.Some? && exists i :: 0 <= i < |varlist.value| && RowFor(sim, varlist.value[i], filterBy) == Err(r.failure))
  {
    if !sim.hasOutputTable then Err(NoOutputTable)
    else if varlist.None? then Err(NotSet("varlist"))
    else
      match CollectRows(sim, varlist.value, filterBy)
      case Err(e) => Err(e)
      case Ok(rows) =>
        match Items(rows)
        case Err(e) => Err(e)
        case Ok(items) => ItemsShaped(rows); Ok(Arrange(|rows|, items))
  }

  /** The engine has default data for the variable's entity. */
  ghost predicate HasDefault(sim: Simulation, v: string) {
    v in sim.entities && sim.entities[v] in sim.defaultFrames
  }

  lemma RowsDefaults(sim: Simulation, vars: seq<string>, filterBy: Option<string>, rows: seq<Row>)
    requires Aligned(sim) && CollectRows(sim, vars, filterBy) == Ok(rows)
    ensures AllDefault(rows) <==> forall i :: 0 <= i < |vars| ==> HasDefault(sim, vars[i])
    ensures NoDefault(rows) <==> forall i :: 0 <= i < |vars| ==> !HasDefault(sim, vars[i])
  {
    CollectRowsSpec(sim, vars, filterBy);
    forall i | 0 <= i < |vars|
      ensures rows[i].aggregate.default.Some? <==> HasDefault(sim, vars[i])
    {
      assert rows[i] == RowFor(sim, vars[i], filterBy).value;
    }
  }

  /** Once the loop over `varlist` has its rows, compute_aggregates raises
      exactly when the default lists are non-empty yet shorter than the
      rows, and otherwise returns the items of the rows laid out in the
      order of `labels`. */
  lemma AggregateTableOfRows(sim: Simulation, vars: seq<string>, filterBy: Option<string>, rows: seq<Row>)
    requires Aligned(sim) && sim.hasOutputTable && CollectRows(sim, vars, filterBy) == Ok(rows)
    ensures var mismatch := DefaultAmounts(rows) != [] && |DefaultAmounts(rows)| != |rows|;
      && (mismatch ==> AggregateTable(sim, Some(vars), filterBy) == Err(LengthMismatch))
      && (!mismatch ==> Shaped(ItemColumns(rows), |rows|))
      && (!mismatch ==> AggregateTable(sim, Some(vars), filterBy) == Ok(Arrange(|rows|, ItemColumns(rows))))
  {
    if !(DefaultAmounts(rows) != [] && |DefaultAmounts(rows)| != |rows|) {
      ItemsShaped(rows);
    }
  }

  /** A table that compute_aggregates returns is the items of the rows of
      `varlist`, laid out in the order of `labels`. */
  lemma AggregateTableParts(sim: Simulation, vars: seq<string>, filterBy: Option<string>, t: Table)
    requires Aligned(sim)
    requires AggregateTable(sim, Some(vars), filterBy) == Ok(t)
    ensures CollectRows(sim, vars, filterBy).Ok?
    ensures var rows := CollectRows(sim, vars, filterBy).value;
      && (NoDefault(rows) || AllDefault(rows))
      && t == Arrange(|rows|, ItemColumns(rows))
  {
  }

  /** When compute_aggregates succeeds and when it raises: no output table, an
      unresolvable variable, or default data for some variables but not all. */
  lemma AggregateTableSucceeds(sim: Simulation, vars: seq<string>, filterBy: Option<string>)
    requires Aligned(sim)
    ensures AggregateTable(sim, Some(vars), filterBy).Ok? <==>
      && sim.hasOutputTable
      && (forall i :: 0 <= i < |vars| ==> Resolvable(sim, vars[i], filterBy) && vars[i] in sim.labels)
      && ((forall i :: 0 <= i < |vars| ==> HasDefault(sim, vars[i])) || (forall i :: 0 <= i < |vars| ==> !HasDefault(sim, vars[i])))
  {
    var r := CollectRows(sim, vars, filterBy);
    CollectRowsSpec(sim, vars, filterBy);
    if sim.hasOutputTable && r.Ok? {
      RowsDefaults(sim, vars, filterBy, r.value);
    }
  }

  /** A successful table has one row per variable of `varlist`, in its order:
      the variable's label, its entity (never the 'NA' fallback), and the
      current amount and beneficiaries that get_aggregate reports for it. */
  lemma AggregateTableRows(sim: Simulation, vars: seq<string>, filterBy: Option<string>, t: Table)
    requires Aligned(sim)
    requires AggregateTable(sim, Some(vars), filterBy) == Ok(t)
    ensures Valid(t) && t.rows == |vars|
    ensures forall i :: 0 <= i < |vars| ==> Resolvable(sim, vars[i], filterBy) && vars[i] in sim.labels
    ensures Var in t.columns && Entity in t.columns && t.columns[Var].Text? && t.columns[Entity].Text?
    ensures |t.columns[Var].names| == |vars| && |t.columns[Entity].names| == |vars|
    ensures forall i :: 0 <= i < |vars| ==>
      && vars[i] in sim.labels && vars[i] in sim.entities
      && t.columns[Var].names[i] == sim.labels[vars[i]]
      && t.columns[Entity].names[i] == sim.entities[vars[i]]
    ensures (Dep in t.columns <==> |vars| > 0) && (Benef in t.columns <==> |vars| > 0)
    ensures |vars| > 0 ==>
      && t.columns[Dep].Numbers? && t.columns[Benef].Numbers?
      && |t.columns[Dep].cells| == |vars| && |t.columns[Benef].cells| == |vars|
    ensures |vars| > 0 ==> forall i :: 0 <= i < |vars| ==>
      && GetAggregate(sim, vars[i], filterBy).Ok?
      && var a := GetAggregate(sim, vars[i], filterBy).value.current;
         t.columns[Dep].cells[i] == FromInt(a.amount) && t.columns[Benef].cells[i] == FromInt(a.beneficiaries)
  {
    AggregateTableParts(sim, vars, filterBy, t);
    CollectRowsSpec(sim, vars, filterBy);
    var rows := CollectRows(sim, vars, filterBy).value;
    ItemsTextColumns(rows);
    ItemsCurrentColumns(rows);
  }

  /** The default columns are present exactly when there is at least one
      variable and the engine has default data for it (and then for all of
      them); they hold get_aggregate's default entries. */
  lemma AggregateTableDefaults(sim: Simulation, vars: seq<string>, filterBy: Option<string>, t: Table)
    requires Aligned(sim)
    requires AggregateTable(sim, Some(vars), filterBy) == Ok(t)
    ensures Valid(t) && t.rows == |vars|
    ensures forall i :: 0 <= i < |vars| ==> Resolvable(sim, vars[i], filterBy) && vars[i] in sim.labels
    ensures DepDefault in t.columns <==> |vars| > 0 && HasDefault(sim, vars[0])
    ensures BenefDefault in t.columns <==> DepDefault in t.columns
    ensures DepDefault in t.columns ==>
      && t.columns[DepDefault].Numbers? && t.columns[BenefDefault].Numbers?
      && |t.columns[DepDefault].cells| == |vars| && |t.columns[BenefDefault].cells| == |vars|
    ensures DepDefault in t.columns ==> forall i :: 0 <= i < |vars| ==>
      && HasDefault(sim, vars[i])
      && GetAggregate(sim, vars[i], filterBy).Ok?
      && GetAggregate(sim, vars[i], filterBy).value.default.Some?
      && var d := GetAggregate(sim, vars[i], filterBy).value.default.value;
         t.columns[DepDefault].cells[i] == FromInt(d.amount) && t.columns[BenefDefault].cells[i] == FromInt(d.beneficiaries)
  {
    AggregateTableParts(sim, vars, filterBy, t);
    CollectRowsSpec(sim, vars, filterBy);
    var rows := CollectRows(sim, vars, filterBy).value;
    ItemsDefaultColumns(rows);
    RowsDefaults(sim, vars, filterBy, rows);
    if |vars| > 0 && HasDefault(sim, vars[0]) {
      assert !NoDefault(rows);
    }
  }

  /** `Present` over all of `labels`, for the key sets compute_aggregates
      can produce. */
  lemma PresentOfItems(keys: set<Code>, current: bool, defaults: bool)
    requires Var in keys && Entity in keys
    requires (Dep in keys <==> current) && (Benef in keys <==> current)
    requires (DepDefault in keys <==> defaults) && (BenefDefault in keys <==> defaults)
    requires DepReal !in keys && BenefReal !in keys && DepDiffAbs !in keys
    requires BenefDiffAbs !in keys && DepDiffRel !in keys && BenefDiffRel !in keys
    ensures Present(12, keys) == [Var, Entity] + (if current then [Dep, Benef] else [])
                                 + (if defaults then [DepDefault, BenefDefault] else [])
  {
    assert Present(1, keys) == [Var] by { assert Present(0, keys) == []; }
    assert Present(2, keys) == [Var, Entity];
    if current {
      assert Present(3, keys) == [Var, Entity, Dep];
      assert Present(4, keys) == [Var, Entity, Dep, Benef];
      if defaults {
        assert Present(5, keys) == [Var, Entity, Dep, Benef, DepDefault];
        assert Present(6, keys) == [Var, Entity, Dep, Benef, DepDefault, BenefDefault];
      } else {
        assert Present(5, keys) == [Var, Entity, Dep, Benef];
        assert Present(6, keys) == [Var, Entity, Dep, Benef];
      }
    } else {
      assert Present(3, keys) == [Var, Entity];
      assert Present(4, keys) == [Var, Entity];
      if defaults {
        assert Present(5, keys) == [Var, Entity, DepDefault];
        assert Present(6, keys) == [Var, Entity, DepDefault, BenefDefault];
      } else {
        assert Present(5, keys) == [Var, Entity];
        assert Present(6, keys) == [Var, Entity];
      }
    }
    PresentTail(keys);
  }

  lemma PresentTail(keys: set<Code>)
    requires DepReal !in keys && BenefReal !in keys && DepDiffAbs !in keys
    requires BenefDiffAbs !in keys && DepDiffRel !in keys && BenefDiffRel !in keys
    ensures Present(12, keys) == Present(6, keys)
  {
    assert Present(8, keys) == Present(6, keys) by { assert Present(7, keys) == Present(6, keys); }
    assert Present(10, keys) == Present(8, keys) by { assert Present(9, keys) == Present(8, keys); }
    assert Present(12, keys) == Present(10, keys) by { assert Present(11, keys) == Present(10, keys); }
  }

  /** The columns come in the order of `labels`: 'var', 'entity', then the
      current pair when there are variables, then the default pair if any. */
  lemma AggregateTableColumnOrder(sim: Simulation, vars: seq<string>, filterBy: Option<string>, t: Table)
    requires Aligned(sim)
    requires AggregateTable(sim, Some(vars), filterBy) == Ok(t)
    ensures InLabelOrder(t.codes)
    ensures t.codes == [Var, Entity] + (if |vars| > 0 then [Dep, Benef] else [])
                       + (if DepDefault in t.columns then [DepDefault, BenefDefault] else [])
  {
    CollectRowsSpec(sim, vars, filterBy);
    var rows := CollectRows(sim, vars, filterBy).value;
    var items := Items(rows).value;
    ItemsTextColumns(rows);
    ItemsCurrentColumns(rows);
    ItemsDefaultColumns(rows);
    ItemsKeys(rows);
    PresentOfItems(items.Keys, |vars| > 0, DepDefault in t.columns);
  }

  /** compute_aggregates never writes a real or a diff column. */
  lemma AggregateTableNoLaterColumns(sim: Simulation, vars: seq<string>, filterBy: Option<string>, t: Table)
    requires Aligned(sim)
    requires AggregateTable(sim, Some(vars), filterBy) == Ok(t)
    ensures NoLaterColumns(t.columns)
  {
    ItemsKeys(CollectRows(sim, vars, filterBy).value);
  }

  /** The frame compute_aggregates leaves, as compute_real and compute_diff
      see it: one row per variable, the current pair exactly when there is
      a variable, and none of the later columns. */
  lemma AggregateTableFrame(sim: Simulation, vars: seq<string>, filterBy: Option<string>, t: Table)
    requires Aligned(sim)
    requires AggregateTable(sim, Some(vars), filterBy) == Ok(t)
    ensures Valid(t) && t.rows == |vars| && NoLaterColumns(t.columns)
    ensures (Dep in t.columns <==> |vars| > 0) && (Benef in t.columns <==> |vars| > 0)
  {
    AggregateTableRows(sim, vars, filterBy, t);
    AggregateTableNoLaterColumns(sim, vars, filterBy, t);
  }
}
