/** The loops of `Aggregates` that build lists and tables, each proved to
    compute the function that specifies it. */
module Loops {
  import opened Values
  import opened Simulations
  import opened Tables
  import opened Aggregation
  import opened Totals
  import opened Reconciliation

  /** The lists `V`, `U`, `M['data']`, `B['data']`, `M['default']` and
      `B['default']` of compute_aggregates. */
  datatype Lists = Lists(
    labels: seq<string>, entities: seq<string>,
    amounts: seq<Num>, benefs: seq<Num>,
    defaultAmounts: seq<Num>, defaultBenefs: seq<Num>)

  /** The lists after one more pass of the loop: the default entries are
      appended only when get_aggregate returned a 'default' entry. */
  function AppendRow(l: Lists, x: Row): Lists {
    var d := x.aggregate.default;
    Lists(l.labels + [x.name], l.entities + [x.entity],
          l.amounts + [FromInt(x.aggregate.current.amount)],
          l.benefs + [FromInt(x.aggregate.current.beneficiaries)],
          if d.Some? then l.defaultAmounts + [FromInt(d.value.amount)] else l.defaultAmounts,
          if d.Some? then l.defaultBenefs + [FromInt(d.value.beneficiaries)] else l.defaultBenefs)
  }

  /** The lists once every row has been appended, one row at a time. */
  function ListsOf(rows: seq<Row>): Lists {
    if rows == [] then Lists([], [], [], [], [], [])
    else AppendRow(ListsOf(rows[..|rows| - 1]), rows[|rows| - 1])
  }

  lemma ListsAppend(rows: seq<Row>, x: Row)
    ensures ListsOf(rows + [x]) == AppendRow(ListsOf(rows), x)
  {
    assert (rows + [x])[..|rows|] == rows;
  }

  /** The lists are those compute_aggregates' table is built from. */
  lemma {:induction false} ListsOfRows(rows: seq<Row>)
    ensures ListsOf(rows) == Lists(Labels(rows), Entities(rows), Amounts(rows), Beneficiaries(rows),
                                   DefaultAmounts(rows), DefaultBeneficiaries(rows))
  {
    if rows != [] {
      ListsOfRows(rows[..|rows| - 1]);
    }
  }

  /** Once a prefix of `varlist` fails, the later variables change nothing. */
  lemma {:induction false} CollectPrefixFailure(sim: Simulation, vars: seq<string>, filterBy: Option<string>, k: nat)
    requires Aligned(sim) && k <= |vars| && CollectRows(sim, vars[..k], filterBy).Err?
    ensures CollectRows(sim, vars, filterBy) == CollectRows(sim, vars[..k], filterBy)
    decreases |vars|
  {
    if k < |vars| {
      var init := vars[..|vars| - 1];
      assert init[..k] == vars[..k];
      CollectPrefixFailure(sim, init, filterBy, k);
    } else {
      assert vars[..k] == vars;
    }
  }

  /** One more pass extends the rows by the pass's row, or fails with it. */
  lemma CollectStep(sim: Simulation, vars: seq<string>, filterBy: Option<string>, k: nat, rows: seq<Row>)
    requires Aligned(sim) && k < |vars|
    requires CollectRows(sim, vars[..k], filterBy) == Ok(rows)
    ensures var row := RowFor(sim, vars[k], filterBy);
      CollectRows(sim, vars[..k + 1], filterBy) == if row.Ok? then Ok(rows + [row.value]) else Err(row.failure)
  {
    assert vars[..k + 1][..k] == vars[..k];
  }

  /** The loop `for var in self.varlist` of compute_aggregates: get_aggregate,
      the label, the entity, and the entries of each dataset appended in
      turn; the first failing variable aborts it. */
  method CollectLists(sim: Simulation, vars: seq<string>, filterBy: Option<string>) returns (r: Result<Lists>)
    requires Aligned(sim)
    ensures r.Ok? <==> CollectRows(sim, vars, filterBy).Ok?
    ensures r.Ok? ==> r.value == ListsOf(CollectRows(sim, vars, filterBy).value)
    ensures r.Err? ==> r.failure == CollectRows(sim, vars, filterBy).failure
  {
    var V, U, M, B, MD, BD := [], [], [], [], [], [];
    ghost var rows: seq<Row> := [];
    for k := 0 to |vars|
      invariant CollectRows(sim, vars[..k], filterBy) == Ok(rows)
      invariant Lists(V, U, M, B, MD, BD) == ListsOf(rows)
    {
      var row := RowFor(sim, vars[k], filterBy);
      CollectStep(sim, vars, filterBy, k, rows);
      if row.Err? {
        CollectPrefixFailure(sim, vars, filterBy, k + 1);
        return Err(row.failure);
      }
      var x := row.value;
      V := V + [x.name];
      U := U + [x.entity];
      M := M + [FromInt(x.aggregate.current.amount)];
      B := B + [FromInt(x.aggregate.current.beneficiaries)];
      if x.aggregate.default.Some? {
        MD := MD + [FromInt(x.aggregate.default.value.amount)];
        BD := BD + [FromInt(x.aggregate.default.value.beneficiaries)];
      }
      ListsAppend(rows, x);
      rows := rows + [x];
    }
    assert vars[..|vars|] == vars;
    return Ok(Lists(V, U, M, B, MD, BD));
  }

  /** The items list of compute_aggregates: labels, each dataset whose
      amount list is non-empty, and entities. */
  method BuildItems(l: Lists, ghost rows: seq<Row>) returns (items: map<Code, Column>)
    requires l == Lists(Labels(rows), Entities(rows), Amounts(rows), Beneficiaries(rows),
                        DefaultAmounts(rows), DefaultBeneficiaries(rows))
    ensures items == ItemColumns(rows)
  {
    items := map[Var := Text(l.labels), Entity := Text(l.entities)];
    if l.amounts != [] {
      items := items[Dep := Numbers(l.amounts)][Benef := Numbers(l.benefs)];
    }
    if l.defaultAmounts != [] {
      items := items[DepDefault := Numbers(l.defaultAmounts)][BenefDefault := Numbers(l.defaultBenefs)];
    }
  }

  /** After the first `i` keys of `labels`: the frame holds, in the order of
      `labels`, exactly the items among them. */
  ghost predicate JoinedUpTo(t: Table, m: map<Code, Column>, n: nat, i: nat)
    requires i <= 12
  {
    Valid(t) && t.rows == n
    && t.codes == Present(i, m.Keys)
    && (forall c :: c in t.columns <==> c in m && Rank(c) < i)
    && (forall c :: c in t.columns ==> t.columns[c] == m[c])
  }

  /** One pass of the loop over `labels` keeps the frame joined so far. */
  lemma JoinStep(t: Table, m: map<Code, Column>, n: nat, i: nat)
    requires i < 12 && Shaped(m, n) && JoinedUpTo(t, m, n, i)
    ensures CodeAt(i) in m ==> JoinedUpTo(SetColumn(t, CodeAt(i), m[CodeAt(i)]), m, n, i + 1)
    ensures CodeAt(i) !in m ==> JoinedUpTo(t, m, n, i + 1)
  {
    forall c | Rank(c) == i
      ensures c == CodeAt(i)
    {
    }
  }

  /** The loop `for code, label in self.labels.iteritems()`: each column the
      items hold is joined to the frame, in the order of `labels`. */
  method ArrangeColumns(n: nat, m: map<Code, Column>) returns (t: Table)
    requires Shaped(m, n)
    ensures t == Arrange(n, m)
  {
    t := Empty(n);
    for i := 0 to 12
      invariant JoinedUpTo(t, m, n, i)
    {
      JoinStep(t, m, n, i);
      var c := CodeAt(i);
      if c in m {
        t := SetColumn(t, c, m[c]);
      }
    }
    assert t.columns == m;
  }

  /** The loop of compute_real: per variable of `varlist`, the loaded amount
      and beneficiaries, or NaN for a variable the totals do not list. */
  method RealLists(vars: seq<string>, totals: Totals) returns (a: seq<Num>, b: seq<Num>)
    ensures a == RealCells(vars, totals, AmountColumn)
    ensures b == RealCells(vars, totals, BenefColumn)
  {
    a, b := [], [];
    for k := 0 to |vars|
      invariant |a| == k && |b| == k
      invariant forall i :: 0 <= i < k ==> a[i] == RealCells(vars, totals, AmountColumn)[i]
      invariant forall i :: 0 <= i < k ==> b[i] == RealCells(vars, totals, BenefColumn)[i]
    {
      if vars[k] in totals {
        a := a + [totals[vars[k]].amount];
        b := b + [totals[vars[k]].benef];
      } else {
        a := a + [None];
        b := b + [None];
      }
    }
  }

  /** Once a prefix of the parts is missing, the whole sum fails the same way. */
  lemma {:induction false} AccumulatePrefixFailure(t: Totals, keys: seq<string>, k: nat, f: Field)
    requires k <= |keys| && Accumulate(t, keys[..k], f).Err?
    ensures Accumulate(t, keys, f) == Accumulate(t, keys[..k], f)
    decreases |keys|
  {
    if k < |keys| {
      var init := keys[..|keys| - 1];
      assert init[..k] == keys[..k];
      AccumulatePrefixFailure(t, init, k, f);
    } else {
      assert keys[..k] == keys;
    }
  }

  /** `acc = 0; for var in keys: acc += totals_df.get_value(var, col)`. */
  method SumParts(t: Totals, keys: seq<string>, f: Field) returns (r: Result<Num>)
    ensures r == Accumulate(t, keys, f)
  {
    var acc: Num := Some(0.0);
    for k := 0 to |keys|
      invariant Accumulate(t, keys[..k], f) == Ok(acc)
    {
      assert keys[..k + 1][..k] == keys[..k];
      var x := GetValue(t, keys[k], f);
      if x.Err? {
        AccumulatePrefixFailure(t, keys, k + 1, f);
        return Err(x.failure);
      }
      acc := Add(acc, x.value);
    }
    assert keys[..|keys|] == keys;
    return Ok(acc);
  }

  /** Once a prefix of the levies is missing, the whole pass fails the same way. */
  lemma {:induction false} NegatePrefixFailure(t: Totals, keys: seq<string>, k: nat)
    requires k <= |keys| && NegateAmounts(t, keys[..k]).Err?
    ensures NegateAmounts(t, keys) == NegateAmounts(t, keys[..k])
    decreases |keys|
  {
    if k < |keys| {
      var init := keys[..|keys| - 1];
      assert init[..k] == keys[..k];
      NegatePrefixFailure(t, init, k);
    } else {
      assert keys[..k] == keys;
    }
  }

  /** `for var in levies: set_value(var, 'amount', -get_value(var, 'amount'))`. */
  method NegateLevies(t: Totals, keys: seq<string>) returns (r: Result<Totals>)
    ensures r == NegateAmounts(t, keys)
  {
    var cur := t;
    for k := 0 to |keys|
      invariant NegateAmounts(t, keys[..k]) == Ok(cur)
    {
      assert keys[..k + 1][..k] == keys[..k];
      var x := GetValue(cur, keys[k], AmountColumn);
      if x.Err? {
        NegatePrefixFailure(t, keys, k + 1);
        return Err(x.failure);
      }
      cur := SetValue(cur, keys[k], AmountColumn, Neg(x.value));
    }
    assert keys[..|keys|] == keys;
    return Ok(cur);
  }

  /** One pass of `for col in ['amount', 'benef']` of load_amounts_from_file. */
  method DerivePass(t: Totals, f: Field) returns (r: Result<Totals>)
    ensures r == DeriveColumn(t, f)
  {
    var logt := SumParts(t, HousingParts, f);
    if logt.Err? {
      return Err(logt.failure);
    }
    var t1 := SetValue(t, Logt, f, logt.value);
    var rsa := SumParts(t1, MinimumIncomeParts, f);
    if rsa.Err? {
      return Err(rsa.failure);
    }
    var t2 := SetValue(t1, Rsa, f, rsa.value);
    if f == AmountColumn {
      r := NegateLevies(t2, Levies);
    } else {
      r := Ok(t2);
    }
  }
}
