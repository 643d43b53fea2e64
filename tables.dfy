/** The aggregate table (`aggr_frame`): columns named by the keys of the
    `labels` ordered dict, in the order they were added, all of one length. */
module Tables {
  import opened Values

  /** The keys of `Aggregates.labels`. */
  datatype Code =
    | Var | Entity | Dep | Benef | DepDefault | BenefDefault
    | DepReal | BenefReal | DepDiffAbs | BenefDiffAbs | DepDiffRel | BenefDiffRel

  /** The key as written in `labels`. */
  function Key(c: Code): string {
    match c
    case Var => "var"
    case Entity => "entity"
    case Dep => "dep"
    case Benef => "benef"
    case DepDefault => "dep_default"
    case BenefDefault => "benef_default"
    case DepReal => "dep_real"
    case BenefReal => "benef_real"
    case DepDiffAbs => "dep_diff_abs"
    case BenefDiffAbs => "benef_diff_abs"
    case DepDiffRel => "dep_diff_rel"
    case BenefDiffRel => "benef_diff_rel"
  }

  /** The position of a key in `labels`. */
  function Rank(c: Code): (n: nat)
    ensures n < 12
  {
    match c
    case Var => 0
    case Entity => 1
    case Dep => 2
    case Benef => 3
    case DepDefault => 4
    case BenefDefault => 5
    case DepReal => 6
    case BenefReal => 7
    case DepDiffAbs => 8
    case BenefDiffAbs => 9
    case DepDiffRel => 10
    case BenefDiffRel => 11
  }

  /** The key at position `n` of `labels`. */
  function CodeAt(n: nat): (c: Code)
    requires n < 12
    ensures Rank(c) == n
  {
    [Var, Entity, Dep, Benef, DepDefault, BenefDefault,
     DepReal, BenefReal, DepDiffAbs, BenefDiffAbs, DepDiffRel, BenefDiffRel][n]
  }

  /** The two text columns; every other column holds numbers. */
  predicate IsText(c: Code) {
    c == Var || c == Entity
  }

  datatype Column = Text(names: seq<string>) | Numbers(cells: seq<Num>)

  function Length(col: Column): nat {
    match col
    case Text(names) => |names|
    case Numbers(cells) => |cells|
  }

  /** `codes` is the column order; `columns` the contents. */
  datatype Table = Table(rows: nat, codes: seq<Code>, columns: map<Code, Column>)

  ghost predicate Distinct(codes: seq<Code>) {
    forall i, j :: 0 <= i < j < |codes| ==> codes[i] != codes[j]
  }

  /** Codes that appear in the order of `labels`. */
  ghost predicate InLabelOrder(codes: seq<Code>) {
    forall i, j :: 0 <= i < j < |codes| ==> Rank(codes[i]) < Rank(codes[j])
  }

  /** A frame: each column once, listed in `codes`, all `rows` long, and of
      the kind its key calls for. */
  ghost predicate Valid(t: Table) {
    Distinct(t.codes)
    && (forall c :: c in t.columns <==> c in t.codes)
    && (forall c :: c in t.columns ==> Length(t.columns[c]) == t.rows && (t.columns[c].Text? <==> IsText(c)))
  }

  /** A frame with no column yet. */
  function Empty(rows: nat): (t: Table)
    ensures Valid(t) && t.rows == rows && t.columns == map[]
  {
    Table(rows, [], map[])
  }

  /** `frame[label] = values`: an existing column is replaced where it stands,
      a new one is appended after the others. */
  function SetColumn(t: Table, c: Code, col: Column): (t': Table)
    requires Valid(t) && Length(col) == t.rows && (col.Text? <==> IsText(c))
    ensures Valid(t')
    ensures t'.rows == t.rows && t'.columns == t.columns[c := col]
    ensures t'.codes == if c in t.columns then t.codes else t.codes + [c]
  {
    Table(t.rows, if c in t.columns then t.codes else t.codes + [c], t.columns[c := col])
  }

  /** What writing column `c` adds to the order of a frame with columns `m`:
      `c` itself when it is new, nothing when it is already there. */
  function Added(m: map<Code, Column>, c: Code): (r: seq<Code>)
    ensures r == [] <==> c in m
  {
    if c in m then [] else [c]
  }

  /** The order after `frame[label] = values`, as one expression. */
  lemma SetColumnCodes(t: Table, c: Code, col: Column)
    requires Valid(t) && Length(col) == t.rows && (col.Text? <==> IsText(c))
    ensures SetColumn(t, c, col).codes == t.codes + Added(t.columns, c)
  {
    if c in t.columns {
      assert t.codes + [] == t.codes;
    }
  }

  /** Appending codes one at a time appends the list of them. */
  lemma AppendTwo(s: seq<Code>, a: Code, b: Code)
    ensures s + [a] + [b] == s + [a, b]
  {
  }

  lemma AppendFour(s: seq<Code>, a: Code, b: Code, c: Code, d: Code)
    ensures s + [a] + [b] + [c] + [d] == s + [a, b, c, d]
  {
  }

  lemma AppendSix(s: seq<Code>, a: Code, b: Code, c: Code, d: Code, e: Code, f: Code)
    ensures s + [a, b] + [c, d, e, f] == s + [a, b, c, d, e, f]
  {
  }

  /** Two columns written one after the other: both kept where they stand
      if present, appended in the order written if not. */
  function SetPair(t: Table, a: Code, colA: Column, b: Code, colB: Column): (t': Table)
    requires Valid(t) && a != b
    requires Length(colA) == t.rows && (colA.Text? <==> IsText(a))
    requires Length(colB) == t.rows && (colB.Text? <==> IsText(b))
    ensures Valid(t') && t'.rows == t.rows
    ensures t'.columns == t.columns[a := colA][b := colB]
    ensures t'.codes == t.codes + Added(t.columns, a) + Added(t.columns, b)
  {
    SetColumnCodes(t, a, colA);
    var t1 := SetColumn(t, a, colA);
    SetColumnCodes(t1, b, colB);
    assert b in t1.columns <==> b in t.columns;
    SetColumn(t1, b, colB)
  }

  /** `frame[label]` on a numeric column: a KeyError when the column is absent. */
  function GetNumbers(t: Table, c: Code): (r: Result<seq<Num>>)
    requires Valid(t) && !IsText(c)
    ensures r.Ok? <==> c in t.columns
    ensures r.Ok? ==> t.columns[c] == Numbers(r.value) && |r.value| == t.rows
    ensures r.Err? ==> r.failure == MissingKey(Key(c))
  {
    if c in t.columns then Ok(t.columns[c].cells) else Err(MissingKey(Key(c)))
  }

  /** The codes among the first `n` keys of `labels` that are in `keys`, in
      the order of `labels`: with `n` = 12, the columns that
      `for code, label in labels.iteritems()` finds in a frame. */
  function Present(n: nat, keys: set<Code>): seq<Code>
    requires n <= 12
  {
    if n == 0 then []
    else if CodeAt(n - 1) in keys then Present(n - 1, keys) + [CodeAt(n - 1)]
    else Present(n - 1, keys)
  }

  lemma {:induction false} PresentMembers(n: nat, keys: set<Code>)
    requires n <= 12
    ensures forall c :: c in Present(n, keys) <==> Rank(c) < n && c in keys
  {
    if n > 0 {
      PresentMembers(n - 1, keys);
      assert forall c :: Rank(c) == n - 1 ==> c == CodeAt(n - 1);
    }
  }

  lemma {:induction false} PresentKeepsOrder(n: nat, keys: set<Code>)
    requires n <= 12
    ensures InLabelOrder(Present(n, keys)) && Distinct(Present(n, keys))
  {
    if n > 0 {
      PresentKeepsOrder(n - 1, keys);
      PresentMembers(n - 1, keys);
    }
  }
}
