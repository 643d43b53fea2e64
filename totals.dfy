/** The administrative totals `totals_df` that `load_amounts_from_file` builds
    from the store: a table indexed by variable name with an 'amount' column
    (millions) and a 'benef' column (thousands), plus the derived rows for
    housing benefits (`logt`) and minimum income (`rsa`), with the levies'
    amounts negated. The class method that runs the loops is
    `AggregatesEngine.Aggregates.LoadAmountsFromFile`. */
module Totals {
  import opened Values
  import opened Reducer

  /** The two tables of the store, `store['amounts']` and `store['benef']`,
      each given by its year columns: year, then variable, then value. */
  datatype Store = Store(amounts: map<int, map<string, Num>>, benef: map<int, map<string, Num>>)

  /** The two columns of `totals_df`. */
  datatype Field = AmountColumn | BenefColumn

  /** One row of `totals_df`. */
  datatype TotalsRow = TotalsRow(amount: Num, benef: Num)

  /** `totals_df`, by variable name. */
  type Totals = map<string, TotalsRow>

  const Logt: string := "logt"
  const Rsa: string := "rsa"
  /** The housing benefits whose sum is `logt`. */
  const HousingParts: seq<string> := ["apl", "alf", "als"]
  /** The minimum-income lines whose sum replaces `rsa`. */
  const MinimumIncomeParts: seq<string> := ["rmi", "rsa"]
  /** The levies, whose amounts are stored as positive receipts. */
  const Levies: seq<string> := ["irpp", "csg", "crds", "cotsoc_noncontrib"]

  /** Every key the derivation reads. */
  function RequiredKeys(): seq<string> {
    HousingParts + MinimumIncomeParts + Levies
  }

  /** The names the derivation reads and writes are told apart by their
      first letters ('rmi' and 'rsa' by their second). */
  lemma NamesDiffer()
    ensures forall i :: 0 <= i < |Levies| ==> Levies[i] != Logt && Levies[i] != Rsa
    ensures DistinctKeys(Levies)
    ensures forall i :: 0 <= i < |HousingParts| ==> HousingParts[i] != Logt && HousingParts[i] != Rsa && HousingParts[i] !in Levies
    ensures MinimumIncomeParts[0] != Logt && MinimumIncomeParts[0] !in Levies && MinimumIncomeParts[1] == Rsa
    ensures Rsa != Logt && Rsa !in Levies
  {
    assert Logt[0] == 'l' && Rsa[0] == 'r' && Rsa[1] == 's';
    assert Levies[0][0] == 'i' && Levies[1][0] == 'c' && Levies[2][0] == 'c' && Levies[3][0] == 'c';
    assert Levies[1][1] == 's' && Levies[2][1] == 'r' && Levies[3][1] == 'o';
    assert HousingParts[0][0] == 'a' && HousingParts[1][0] == 'a' && HousingParts[2][0] == 'a';
    assert MinimumIncomeParts[0][0] == 'r' && MinimumIncomeParts[0][1] == 'm';
  }

  function Get(row: TotalsRow, f: Field): Num {
    match f
    case AmountColumn => row.amount
    case BenefColumn => row.benef
  }

  function Put(row: TotalsRow, f: Field, x: Num): (r: TotalsRow)
    ensures Get(r, f) == x
    ensures forall g :: g != f ==> Get(r, g) == Get(row, g)
  {
    match f
    case AmountColumn => row.(amount := x)
    case BenefColumn => row.(benef := x)
  }

  /** A year column of one store table, scaled, or NaN for a variable the
      table does not list. */
  function Cell(column: map<string, Num>, k: string, unit: real): Num
    requires unit > 0.0
  {
    if k in column then DivBy(column[k], unit) else None
  }

  /** `DataFrame(data = {"amount": df_a[year]/10**6, "benef": df_b[year]/1000})`
      with the all-NaN row `logt` appended: one row per variable of either
      table. */
  function Raw(a: map<string, Num>, b: map<string, Num>): (t: Totals)
    ensures forall k :: k in t <==> k in a || k in b || k == Logt
    ensures t[Logt] == TotalsRow(None, None)
    ensures forall k :: k in t && k != Logt ==>
      t[k] == TotalsRow(Cell(a, k, AmountUnit), Cell(b, k, BeneficiaryUnit))
  {
    (map k | k in a.Keys + b.Keys :: TotalsRow(Cell(a, k, AmountUnit), Cell(b, k, BeneficiaryUnit)))[Logt := TotalsRow(None, None)]
  }

  /** `get_value(var, col)`: a KeyError for a variable not in the index. */
  function GetValue(t: Totals, k: string, f: Field): (r: Result<Num>)
    ensures r.Ok? <==> k in t
    ensures r.Ok? ==> r.value == Get(t[k], f)
    ensures r.Err? ==> r.failure == MissingKey(k)
  {
    if k in t then Ok(Get(t[k], f)) else Err(MissingKey(k))
  }

  /** `set_value(var, col, x)`: sets one cell, adding a row of NaN first when
      the variable is new. */
  function SetValue(t: Totals, k: string, f: Field, x: Num): (t': Totals)
    ensures forall j :: j in t' <==> j in t || j == k
    ensures Get(t'[k], f) == x
    ensures forall g :: g != f ==> Get(t'[k], g) == (if k in t then Get(t[k], g) else None)
    ensures forall j :: j in t && j != k ==> t'[j] == t[j]
  {
    t[k := Put(if k in t then t[k] else TotalsRow(None, None), f, x)]
  }

  /** The cells of column `f` at the rows `keys`. */
  function Cells(t: Totals, keys: seq<string>, f: Field): (xs: seq<Num>)
    requires forall i :: 0 <= i < |keys| ==> keys[i] in t
    ensures |xs| == |keys|
  {
    seq(|keys|, i requires 0 <= i < |keys| => Get(t[keys[i]], f))
  }

  /** `acc = 0; for var in keys: acc += get_value(var, col)`: the sum of the
      cells, or the KeyError of the first variable missing from the index. */
  function Accumulate(t: Totals, keys: seq<string>, f: Field): Result<Num> {
    if keys == [] then Ok(Some(0.0))
    else
      match Accumulate(t, keys[..|keys| - 1], f)
      case Err(e) => Err(e)
      case Ok(acc) =>
        match GetValue(t, keys[|keys| - 1], f)
        case Err(e) => Err(e)
        case Ok(x) => Ok(Add(acc, x))
  }

  /** The sum goes through exactly when every part is listed, and is then
      the left-to-right sum of their cells; otherwise it fails on a part
      that is missing. */
  lemma {:induction false} AccumulateSpec(t: Totals, keys: seq<string>, f: Field)
    ensures var r := Accumulate(t, keys, f);
      && (r.Ok? <==> forall i :: 0 <= i < |keys| ==> keys[i] in t)
      && (r.Ok? ==> r.value == LeftSum(Cells(t, keys, f)))
      && (r.Err? ==> exists i :: 0 <= i < |keys| && keys[i] !in t && r.failure == MissingKey(keys[i]))
  {
    if keys != [] {
      var init := keys[..|keys| - 1];
      var last := keys[|keys| - 1];
      assert forall i :: 0 <= i < |init| ==> init[i] == keys[i];
      AccumulateSpec(t, init, f);
      if Accumulate(t, keys, f).Ok? {
        assert Cells(t, keys, f) == Cells(t, init, f) + [Get(t[last], f)];
      }
    }
  }

  /** `for var in keys: set_value(var, 'amount', -get_value(var, 'amount'))`. */
  function NegateAmounts(t: Totals, keys: seq<string>): (r: Result<Totals>)
    ensures r.Ok? <==> forall i :: 0 <= i < |keys| ==> keys[i] in t
    ensures r.Err? ==> exists i :: 0 <= i < |keys| && keys[i] !in t && r.failure == MissingKey(keys[i])
    ensures r.Ok? ==> forall j :: j in r.value <==> j in t
  {
    if keys == [] then Ok(t)
    else
      var init := keys[..|keys| - 1];
      var last := keys[|keys| - 1];
      assert forall i :: 0 <= i < |init| ==> init[i] == keys[i];
      match NegateAmounts(t, init)
      case Err(e) => Err(e)
      case Ok(t') =>
        match GetValue(t', last, AmountColumn)
        case Err(e) => Err(e)
        case Ok(x) => Ok(SetValue(t', last, AmountColumn, Neg(x)))
  }

  /** The sums of one pass: `logt` is set to the sum of the housing parts,
      then `rsa` to the sum of `rmi` and `rsa`. */
  function WithSums(t: Totals, f: Field): (r: Result<Totals>)
    ensures r.Ok? ==> forall k :: k in r.value <==> k in t || k == Logt
    ensures r.Err? ==> exists k :: k !in t && r.failure == MissingKey(k)
  {
    AccumulateSpec(t, HousingParts, f);
    match Accumulate(t, HousingParts, f)
    case Err(e) => Err(e)
    case Ok(logt) =>
      var t1 := SetValue(t, Logt, f, logt);
      AccumulateSpec(t1, MinimumIncomeParts, f);
      match Accumulate(t1, MinimumIncomeParts, f)
      case Err(e) => Err(e)
      case Ok(rsa) => Ok(SetValue(t1, Rsa, f, rsa))
  }

  /** One pass of `for col in ['amount', 'benef']`: the sums, then, in the
      amount pass only, the levies negated. The pass adds the `logt` row and
      no other, and can only fail on a variable the table does not list. */
  function DeriveColumn(t: Totals, f: Field): (r: Result<Totals>)
    ensures r.Ok? ==> forall k :: k in r.value <==> k in t || k == Logt
    ensures r.Err? ==> exists k :: k !in t && r.failure == MissingKey(k)
  {
    match WithSums(t, f)
    case Err(e) => Err(e)
    case Ok(t2) => if f == AmountColumn then NegateAmounts(t2, Levies) else Ok(t2)
  }

  /** Both passes, the amount column first. */
  function Derive(t: Totals): (r: Result<Totals>)
    ensures r.Ok? ==> forall k :: k in r.value <==> k in t || k == Logt
    ensures r.Err? ==> exists k :: k !in t && r.failure == MissingKey(k)
  {
    match DeriveColumn(t, AmountColumn)
    case Err(e) => Err(e)
    case Ok(t1) => DeriveColumn(t1, BenefColumn)
  }

  /** `load_amounts_from_file(filename, year)`: `year` defaults to the
      simulation's year. A filename argument leaves the data directory unbound,
      so the load fails. Any failure (no store, a year column absent from
      either table, a missing variable) is caught and leaves `None`. */
  function LoadTotals(store: Option<Store>, filenameGiven: bool, year: Option<int>, simulationYear: int): (r: Option<Totals>)
    ensures r.Some? ==>
      var y := if year.Some? then year.value else simulationYear;
      !filenameGiven && store.Some? && y in store.value.amounts && y in store.value.benef
  {
    var y := if year.Some? then year.value else simulationYear;
    if filenameGiven || store.None? || y !in store.value.amounts || y !in store.value.benef then None
    else
      match Derive(Raw(store.value.amounts[y], store.value.benef[y]))
      case Err(_) => None
      case Ok(t) => Some(t)
  }

  ghost predicate DistinctKeys(keys: seq<string>) {
    forall i, j :: 0 <= i < j < |keys| ==> keys[i] != keys[j]
  }

  /** Negating distinct rows flips exactly their amounts. */
  lemma {:induction false} NegateAmountsRows(t: Totals, keys: seq<string>, r: Totals)
    requires DistinctKeys(keys) && NegateAmounts(t, keys) == Ok(r)
    ensures forall i :: 0 <= i < |keys| ==> r[keys[i]] == TotalsRow(Neg(t[keys[i]].amount), t[keys[i]].benef)
    ensures forall j :: j in t && j !in keys ==> r[j] == t[j]
  {
    if keys != [] {
      var init := keys[..|keys| - 1];
      var last := keys[|keys| - 1];
      assert forall i :: 0 <= i < |init| ==> init[i] == keys[i];
      var r' := NegateAmounts(t, init).value;
      NegateAmountsRows(t, init, r');
      assert last !in init;
      assert r'[last] == t[last];
    }
  }

  /** The sums of one pass read the parts as given: `logt` holds the sum
      of the housing parts, `rsa` that of `rmi` and `rsa`, in the pass's
      column; every other cell is unchanged. */
  lemma SumsPass(t: Totals, f: Field, t2: Totals)
    requires WithSums(t, f) == Ok(t2)
    ensures forall i :: 0 <= i < |HousingParts| ==> HousingParts[i] in t
    ensures forall i :: 0 <= i < |MinimumIncomeParts| ==> MinimumIncomeParts[i] in t
    ensures forall k :: k in t2 <==> k in t || k == Logt
    ensures t2[Logt] == Put(if Logt in t then t[Logt] else TotalsRow(None, None), f, LeftSum(Cells(t, HousingParts, f)))
    ensures t2[Rsa] == Put(t[Rsa], f, LeftSum(Cells(t, MinimumIncomeParts, f)))
    ensures forall k :: k in t && k != Logt && k != Rsa ==> t2[k] == t[k]
  {
    AccumulateSpec(t, HousingParts, f);
    var t1 := SetValue(t, Logt, f, Accumulate(t, HousingParts, f).value);
    AccumulateSpec(t1, MinimumIncomeParts, f);
    NamesDiffer();
    assert Cells(t1, MinimumIncomeParts, f) == Cells(t, MinimumIncomeParts, f);
  }

  /** The amount pass: `logt` and `rsa` get the sums of their parts' amounts
      (their beneficiaries are untouched yet), the levies' amounts change
      sign, every other row is as loaded. */
  lemma AmountPass(raw: Totals, t: Totals)
    requires DeriveColumn(raw, AmountColumn) == Ok(t)
    ensures forall k :: k in t <==> k in raw || k == Logt
    ensures forall k :: k in RequiredKeys() ==> k in raw
    ensures t[Logt] == TotalsRow(LeftSum(Cells(raw, HousingParts, AmountColumn)), if Logt in raw then raw[Logt].benef else None)
    ensures t[Rsa] == TotalsRow(LeftSum(Cells(raw, MinimumIncomeParts, AmountColumn)), raw[Rsa].benef)
    ensures forall i :: 0 <= i < |Levies| ==> t[Levies[i]] == TotalsRow(Neg(raw[Levies[i]].amount), raw[Levies[i]].benef)
    ensures forall k :: k in raw && k != Logt && k != Rsa && k !in Levies ==> t[k] == raw[k]
  {
    var t2 := WithSums(raw, AmountColumn).value;
    SumsPass(raw, AmountColumn, t2);
    NamesDiffer();
    NegateAmountsRows(t2, Levies, t);
    forall k | k in RequiredKeys()
      ensures k in raw
    {
      if k in Levies {
        var i :| 0 <= i < |Levies| && Levies[i] == k;
        assert k in t2;
      } else if k in HousingParts {
        var i :| 0 <= i < |HousingParts| && HousingParts[i] == k;
      } else {
        assert k in MinimumIncomeParts;
        var i :| 0 <= i < |MinimumIncomeParts| && MinimumIncomeParts[i] == k;
      }
    }
  }

  /** The beneficiary pass: `logt` and `rsa` get the sums of their parts'
      beneficiaries; nothing else changes. */
  lemma BenefPass(t1: Totals, t: Totals)
    requires DeriveColumn(t1, BenefColumn) == Ok(t)
    ensures forall k :: k in t <==> k in t1 || k == Logt
    ensures forall i :: 0 <= i < |HousingParts| ==> HousingParts[i] in t1
    ensures forall i :: 0 <= i < |MinimumIncomeParts| ==> MinimumIncomeParts[i] in t1
    ensures t[Logt] == TotalsRow(if Logt in t1 then t1[Logt].amount else None, LeftSum(Cells(t1, HousingParts, BenefColumn)))
    ensures Rsa in t1 && t[Rsa] == TotalsRow(t1[Rsa].amount, LeftSum(Cells(t1, MinimumIncomeParts, BenefColumn)))
    ensures forall k :: k in t1 && k != Logt && k != Rsa ==> t[k] == t1[k]
  {
    SumsPass(t1, BenefColumn, t);
    assert MinimumIncomeParts[1] == Rsa;
  }

  /** The derivation succeeds exactly when every variable it reads is listed. */
  lemma DeriveSucceeds(raw: Totals)
    ensures Derive(raw).Ok? <==> forall k :: k in RequiredKeys() ==> k in raw
  {
    var req := RequiredKeys();
    assert req == ["apl", "alf", "als", "rmi", "rsa", "irpp", "csg", "crds", "cotsoc_noncontrib"];
    if forall k :: k in req ==> k in raw {
      AccumulateSpec(raw, HousingParts, AmountColumn);
      var logt := Accumulate(raw, HousingParts, AmountColumn);
      var t1 := SetValue(raw, Logt, AmountColumn, logt.value);
      AccumulateSpec(t1, MinimumIncomeParts, AmountColumn);
      var rsa := Accumulate(t1, MinimumIncomeParts, AmountColumn);
      var t2 := SetValue(t1, Rsa, AmountColumn, rsa.value);
      assert NegateAmounts(t2, Levies).Ok?;
      var a := DeriveColumn(raw, AmountColumn).value;
      AccumulateSpec(a, HousingParts, BenefColumn);
      var b1 := SetValue(a, Logt, BenefColumn, Accumulate(a, HousingParts, BenefColumn).value);
      AccumulateSpec(b1, MinimumIncomeParts, BenefColumn);
      assert Accumulate(b1, MinimumIncomeParts, BenefColumn).Ok?;
    } else if DeriveColumn(raw, AmountColumn).Ok? {
      AmountPass(raw, DeriveColumn(raw, AmountColumn).value);
    } else {
      AccumulateSpec(raw, HousingParts, AmountColumn);
    }
  }

  /** The beneficiary pass reads the parts' beneficiaries as loaded. */
  lemma AmountPassKeepsBeneficiaries(raw: Totals, t1: Totals)
    requires forall k :: k in RequiredKeys() ==> k in raw
    requires forall k :: k in t1 <==> k in raw || k == Logt
    requires Rsa in t1 && t1[Rsa].benef == raw[Rsa].benef
    requires forall k :: k in raw && k != Logt && k != Rsa && k !in Levies ==> t1[k] == raw[k]
    ensures Cells(t1, HousingParts, BenefColumn) == Cells(raw, HousingParts, BenefColumn)
    ensures Cells(t1, MinimumIncomeParts, BenefColumn) == Cells(raw, MinimumIncomeParts, BenefColumn)
  {
    NamesDiffer();
  }

  /** `logt` is apl + alf + als in both columns, from the loaded values. */
  lemma DerivedLogt(raw: Totals, t: Totals)
    requires Derive(raw) == Ok(t)
    ensures forall k :: k in RequiredKeys() ==> k in raw
    ensures t[Logt] == TotalsRow(Sum(Cells(raw, HousingParts, AmountColumn)), Sum(Cells(raw, HousingParts, BenefColumn)))
  {
    var t1 := DeriveColumn(raw, AmountColumn).value;
    AmountPass(raw, t1);
    BenefPass(t1, t);
    AmountPassKeepsBeneficiaries(raw, t1);
    LeftSumIsSum(Cells(raw, HousingParts, AmountColumn));
    LeftSumIsSum(Cells(raw, HousingParts, BenefColumn));
  }

  /** `rsa` is rmi + rsa in both columns, from the loaded values. */
  lemma DerivedRsa(raw: Totals, t: Totals)
    requires Derive(raw) == Ok(t)
    ensures forall k :: k in RequiredKeys() ==> k in raw
    ensures t[Rsa] == TotalsRow(Sum(Cells(raw, MinimumIncomeParts, AmountColumn)), Sum(Cells(raw, MinimumIncomeParts, BenefColumn)))
  {
    var t1 := DeriveColumn(raw, AmountColumn).value;
    AmountPass(raw, t1);
    BenefPass(t1, t);
    AmountPassKeepsBeneficiaries(raw, t1);
    LeftSumIsSum(Cells(raw, MinimumIncomeParts, AmountColumn));
    LeftSumIsSum(Cells(raw, MinimumIncomeParts, BenefColumn));
  }

  /** Only the levies' amounts change sign, their beneficiaries are kept, and
      every row other than `logt` and `rsa` is otherwise as loaded. */
  lemma DerivedOtherRows(raw: Totals, t: Totals)
    requires Derive(raw) == Ok(t)
    ensures forall k :: k in t <==> k in raw || k == Logt
    ensures forall i :: 0 <= i < |Levies| ==> t[Levies[i]] == TotalsRow(Neg(raw[Levies[i]].amount), raw[Levies[i]].benef)
    ensures forall k :: k in raw && k != Logt && k != Rsa && k !in Levies ==> t[k] == raw[k]
  {
    var t1 := DeriveColumn(raw, AmountColumn).value;
    AmountPass(raw, t1);
    BenefPass(t1, t);
    NamesDiffer();
  }

  /** One year column of a store table at the rows `keys`, scaled. */
  function ScaledCells(column: map<string, Num>, keys: seq<string>, unit: real): (xs: seq<Num>)
    requires unit > 0.0
    ensures |xs| == |keys|
  {
    seq(|keys|, i requires 0 <= i < |keys| => Cell(column, keys[i], unit))
  }

  lemma RequiredKeysAreNotLogt()
    ensures forall k :: k in RequiredKeys() ==> k != Logt
  {
    assert RequiredKeys() == ["apl", "alf", "als", "rmi", "rsa", "irpp", "csg", "crds", "cotsoc_noncontrib"];
  }

  /** With a store that has the year in both tables, the load succeeds
      exactly when each of the nine variables the derivation reads is listed
      in at least one of the two tables. */
  lemma LoadTotalsSucceeds(store: Store, year: int, simulationYear: int)
    requires year in store.amounts && year in store.benef
    ensures LoadTotals(Some(store), false, Some(year), simulationYear).Some? <==>
      forall k :: k in RequiredKeys() ==> k in store.amounts[year] || k in store.benef[year]
  {
    RequiredKeysAreNotLogt();
    DeriveSucceeds(Raw(store.amounts[year], store.benef[year]));
  }

  /** Loaded from the store, `logt` and `rsa` hold the sums of their parts'
      year cells scaled to millions and thousands. */
  lemma LoadedSums(store: Store, year: int, simulationYear: int, t: Totals)
    requires LoadTotals(Some(store), false, Some(year), simulationYear) == Some(t)
    ensures var a, b := store.amounts[year], store.benef[year];
      && t[Logt] == TotalsRow(Sum(ScaledCells(a, HousingParts, AmountUnit)), Sum(ScaledCells(b, HousingParts, BeneficiaryUnit)))
      && t[Rsa] == TotalsRow(Sum(ScaledCells(a, MinimumIncomeParts, AmountUnit)), Sum(ScaledCells(b, MinimumIncomeParts, BeneficiaryUnit)))
  {
    var a, b := store.amounts[year], store.benef[year];
    var raw := Raw(a, b);
    DerivedLogt(raw, t);
    DerivedRsa(raw, t);
    RequiredKeysAreNotLogt();
    assert forall k :: k in HousingParts ==> k in RequiredKeys();
    assert forall k :: k in MinimumIncomeParts ==> k in RequiredKeys();
    RawCells(a, b, HousingParts);
    RawCells(a, b, MinimumIncomeParts);
  }

  /** Loaded rows other than `logt` read the scaled year cells. */
  lemma RawCells(a: map<string, Num>, b: map<string, Num>, keys: seq<string>)
    requires forall k :: k in keys ==> k != Logt && k in Raw(a, b)
    ensures Cells(Raw(a, b), keys, AmountColumn) == ScaledCells(a, keys, AmountUnit)
    ensures Cells(Raw(a, b), keys, BenefColumn) == ScaledCells(b, keys, BeneficiaryUnit)
  {
  }

  /** Loaded from the store, a levy's amount is its scaled year cell negated
      and its beneficiaries are as stored; any other variable is as stored. */
  lemma LoadedOtherRows(store: Store, year: int, simulationYear: int, t: Totals)
    requires LoadTotals(Some(store), false, Some(year), simulationYear) == Some(t)
    ensures var a, b := store.amounts[year], store.benef[year];
      && (forall k :: k in t <==> k in a || k in b || k == Logt)
      && (forall i :: 0 <= i < |Levies| ==>
            t[Levies[i]] == TotalsRow(Neg(Cell(a, Levies[i], AmountUnit)), Cell(b, Levies[i], BeneficiaryUnit)))
      && (forall k :: (k in a || k in b) && k != Logt && k != Rsa && k !in Levies ==>
            t[k] == TotalsRow(Cell(a, k, AmountUnit), Cell(b, k, BeneficiaryUnit)))
  {
    var raw := Raw(store.amounts[year], store.benef[year]);
    DerivedOtherRows(raw, t);
    NamesDiffer();
  }
}
