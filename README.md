# Aggregates of an OpenFisca simulation, modelled in Dafny

This project models the `Aggregates` class of the OpenFisca aggregates plugin
(`openfisca_plugin_aggregates/aggregates.py`). That class turns a finished
micro-simulation into a table of national aggregates. For each variable of
`varlist`, the table gives:

- its label and entity;
- the weighted amount, in millions, and the weighted number of beneficiaries,
  in thousands;
- optionally the same pair computed on a default (reference) simulation;
- optionally the administrative totals ("real" amounts) loaded from an HDF
  store;
- the absolute and relative differences against one of those references.

The modules follow the structure of the class:

| module | file | what it holds |
|---|---|---|
| `Values` | values.dfy | float cells as `Option<real>` (`None` is NaN or an infinity), Python `sum`, rounding half away from zero, `Result` and the exceptions that escape |
| `Reducer` | reducer.dfy | the two reductions of `get_aggregate`: `round(sum(v*w)/10**6)` and `round(sum((v != 0)*w)/10**3)` |
| `Simulations` | simulations.dfy | the simulation as a value: output tables per entity, weights, default tables, and `get_aggregate` |
| `Tables` | tables.dfy | the pandas frame `aggr_frame`: columns keyed by the `labels` keys, kept in insertion order |
| `Aggregation` | aggregation.dfy | `compute_aggregates`: the loop over `varlist`, `from_items`, and the joins that order the columns as `labels` does |
| `Totals` | totals.dfy | `load_amounts_from_file`: the scaled totals table, the `logt` and `rsa` sums, and the negated levies |
| `Reconciliation` | reconciliation.dfy | `compute_real` and `compute_diff` as functions on a frame |
| `Loops` | loops.dfy | the loops of the source, as methods proved equal to the functions above |
| `AggregatesEngine` | aggregates.dfy | the `Aggregates` class: its fields, setters, `clear` and the `compute*` methods, plus what the default flags imply for `compute()` |

Pure computations are functions, and properties that relate several calls are
lemmas. The object's fields (`varlist`, `filter_by`, `show_default`,
`show_real`, `totals_df`, `aggr_frame`) live in a `class` whose methods update
them. Each method states its new state through the functions, and the loops
of the source are `for` loops checked against those functions.
A Python exception escaping a method is modelled as `Fail(failure)`, which
leaves the fields exactly as the code leaves them at the point of the raise.

Behaviour of `aggregates.py` worth noting, all of it stated by the model:

- A sum over no terms is `0`, not missing. Python's `sum` of an empty series
  is `0`.
- A NaN value counts as a beneficiary, because `NaN != 0` holds. When a
  non-empty series has only NaN values and finite weights, the amount is
  missing but the beneficiary count is the total weight over 10**3, rounded.
- A failing variable aborts `compute_aggregates` with its exception rather than
  degrading to a missing row. `get_aggregate` looks the entity up before the
  guarded lookup, so the `'NA'` entity can never appear in a table.
- Default data present for some variables but not all makes `from_items`
  raise, because the lists have unequal lengths.
- With the class defaults (`show_default` off, `show_real` on) and no totals
  loaded, `compute()` raises a KeyError on `dep_real` (on `dep` when `varlist`
  is empty) in `compute_diff`. It does not return a table with missing real
  columns.
- The diff columns are appended in the order `dep_diff_rel`, `benef_diff_rel`,
  `dep_diff_abs`, `benef_diff_abs`. This is the order they are written, so after
  `compute_diff` writes the diffs the frame is not in `labels` order.

## Model

| member | source | states |
|---|---|---|
| Values.Sum | openfisca_plugin_aggregates/aggregates.py:207-217 | the sum of a series is non-finite exactly when one of its terms is |
| Values.LeftSumIsSum | openfisca_plugin_aggregates/aggregates.py:298-306 | adding the parts one at a time from 0, as the `logt` and `rsa` loops do, gives the sum of the parts |
| Values.RoundHalfAway | openfisca_plugin_aggregates/aggregates.py:211 | the rounded value is within one half of its argument, and a tie goes away from zero (Python 2 `round`) |
| Values.RoundHalfAwayUnique | openfisca_plugin_aggregates/aggregates.py:211 | those bounds determine the rounded integer uniquely |
| Values.RoundHalfAwayOdd | openfisca_plugin_aggregates/aggregates.py:211 | rounding commutes with negation |
| Reducer.WeightVector | openfisca_plugin_aggregates/aggregates.py:197-203 | without `filter_by`, multiplying by the constant filter 1 gives back the survey weights, NaN entries included; with a filter, a record's weight is non-finite exactly when its survey weight or its filter value is |
| Reducer.NonZero | openfisca_plugin_aggregates/aggregates.py:209 | `values != 0` is 0 or 1, and 1 exactly for a record whose value is not zero, NaN included |
| Reducer.AmountTotal | openfisca_plugin_aggregates/aggregates.py:208-211 | the amount sum is non-finite exactly when some value or some weight is |
| Reducer.BeneficiaryTotal | openfisca_plugin_aggregates/aggregates.py:209-215 | the beneficiary sum is non-finite exactly when some weight is; a NaN value never spoils it |
| Reducer.Scaled | openfisca_plugin_aggregates/aggregates.py:209-217 | a cell is missing exactly when its sum is non-finite (the `except` path), otherwise it is within one half of the sum over the unit |
| Reducer.Reduce | openfisca_plugin_aggregates/aggregates.py:207-219 | the amount is missing exactly when some value or weight is non-finite, and the beneficiaries exactly when some weight is: the two cells are guarded independently |
| Reducer.BeneficiariesAreNonZeroRecords | openfisca_plugin_aggregates/aggregates.py:209 | the beneficiary sum is the total weight of the records whose value is not zero, NaN values included |
| Reducer.ZeroValuedRecordNeverCounts | openfisca_plugin_aggregates/aggregates.py:209 | when all weights are finite, changing the weight of a zero-valued record to another finite weight leaves the beneficiary sum unchanged |
| Reducer.ZeroFilterGivesZeros | openfisca_plugin_aggregates/aggregates.py:197-219 | for finite values and weights, a filter that is zero everywhere gives a zero amount and zero beneficiaries, not missing ones |
| Reducer.AllMissingValues | openfisca_plugin_aggregates/aggregates.py:207-217 | for a non-empty series whose values are all NaN and whose weights are all finite, the amount is missing but the beneficiaries are the total weight over 10**3, rounded |
| Reducer.TotalsScaleWithWeights | openfisca_plugin_aggregates/aggregates.py:203-215 | scaling every weight by k scales both unrounded sums by k |
| Reducer.BeneficiariesScaleWithWeights | openfisca_plugin_aggregates/aggregates.py:203-217 | scaling the weights by k scales the reported beneficiaries by k, up to rounding |
| Reducer.HouseholdExample | openfisca_plugin_aggregates/aggregates.py:197-219 | a three-record series with one filtered-out record reduces to 0 millions and 0 thousands |
| Simulations.GetAggregate | openfisca_plugin_aggregates/aggregates.py:176-223 | succeeds exactly when the variable's entity, column and filter resolve; the current pair is the reduction of the variable's column under the entity's weight times the filter; the default pair exists exactly when the default simulation has the entity's table, and it is reduced with the same weights |
| Simulations.UnitFilterIsNoFilter | openfisca_plugin_aggregates/aggregates.py:197-203 | a filter that is 1 everywhere gives the same aggregates as no filter |
| Simulations.UnchangedVariableHasEqualDefault | openfisca_plugin_aggregates/aggregates.py:199-219 | a variable whose default column equals its current column has equal current and default aggregates |
| Tables.SetColumn | openfisca_plugin_aggregates/aggregates.py:241-242 | `frame[label] = values` keeps the frame well formed, replaces only that column, keeps an existing column in place and appends a new one |
| Tables.SetPair | openfisca_plugin_aggregates/aggregates.py:241-242 | two assignments in a row write exactly those two columns and append the new ones in the order written |
| Tables.GetNumbers | openfisca_plugin_aggregates/aggregates.py:250-263 | `frame[label]` succeeds exactly when the column exists and otherwise raises a KeyError naming it |
| Tables.PresentMembers | openfisca_plugin_aggregates/aggregates.py:163-172 | walking `labels` keeps exactly the keys that are present in the frame |
| Tables.PresentKeepsOrder | openfisca_plugin_aggregates/aggregates.py:163-172 | those keys come out distinct and in `labels` order |
| Aggregation.RowFor | openfisca_plugin_aggregates/aggregates.py:137-147 | one pass over a variable succeeds exactly when get_aggregate does and the variable has a label; it yields that label, the variable's entity and get_aggregate's result |
| Aggregation.CollectRows | openfisca_plugin_aggregates/aggregates.py:137-150 | on success there is one row per variable, the one its pass yields; a failure is the exception of the pass of some variable |
| Aggregation.CollectRowsSpec | openfisca_plugin_aggregates/aggregates.py:137-150 | the loop succeeds exactly when every pass does, and then yields one row per variable, in `varlist` order |
| Aggregation.FirstFailureAborts | openfisca_plugin_aggregates/aggregates.py:137-150 | a failing loop raises the exception of the first failing variable |
| Aggregation.DefaultAmounts | openfisca_plugin_aggregates/aggregates.py:148-150 | the default list is full exactly when every variable has default data, empty exactly when none does, and holds the default amounts |
| Aggregation.Items | openfisca_plugin_aggregates/aggregates.py:153-161 | `from_items` succeeds exactly when the default lists are empty or full |
| Aggregation.ItemsShaped | openfisca_plugin_aggregates/aggregates.py:153-161 | every item column has one cell per variable and the kind its key calls for |
| Aggregation.ItemsDefaultColumns | openfisca_plugin_aggregates/aggregates.py:158-161 | the default columns are present exactly when the default lists are non-empty, and hold the default pair |
| Aggregation.Arrange | openfisca_plugin_aggregates/aggregates.py:163-172 | the joins give a well-formed frame with the same columns, in `labels` order |
| Aggregation.AggregateTable | openfisca_plugin_aggregates/aggregates.py:119-172 | a table is well formed and has one row per variable of `varlist`; the only exceptions are the missing output table, an unset `varlist`, unequal list lengths, or the exception of one variable's pass |
| Aggregation.RowsDefaults | openfisca_plugin_aggregates/aggregates.py:148-150 | the rows all carry default data exactly when every variable's entity has a default table, and none do exactly when no entity has one |
| Aggregation.AggregateTableOfRows | openfisca_plugin_aggregates/aggregates.py:152-172 | from the collected rows, compute_aggregates raises on mismatched default lists and otherwise builds the arranged items |
| Aggregation.AggregateTableParts | openfisca_plugin_aggregates/aggregates.py:119-172 | a table that compute_aggregates returns is the arranged items of the rows of `varlist` |
| Aggregation.AggregateTableSucceeds | openfisca_plugin_aggregates/aggregates.py:119-172 | compute_aggregates succeeds exactly when there is an output table, every variable resolves and has a label, and default data exists for all variables or for none |
| Aggregation.AggregateTableRows | openfisca_plugin_aggregates/aggregates.py:137-172 | a successful table has one row per variable, in `varlist` order, with its label, its entity (never 'NA') and its current amount and beneficiaries |
| Aggregation.AggregateTableDefaults | openfisca_plugin_aggregates/aggregates.py:148-172 | the default columns are there exactly when default data is, and hold every variable's default pair |
| Aggregation.AggregateTableColumnOrder | openfisca_plugin_aggregates/aggregates.py:153-172 | the columns are var, entity, then dep and benef when `varlist` is not empty, then the default pair when present, in `labels` order |
| Aggregation.AggregateTableNoLaterColumns | openfisca_plugin_aggregates/aggregates.py:153-172 | compute_aggregates never writes a real or diff column |
| Aggregation.AggregateTableFrame | openfisca_plugin_aggregates/aggregates.py:119-172 | the frame is well formed, has one row per variable, no real or diff column, and a current pair exactly when `varlist` is not empty |
| Totals.NamesDiffer | openfisca_plugin_aggregates/aggregates.py:295-315 | the parts, the two sums and the levies are distinct names, so no pass overwrites what another reads |
| Totals.Put | openfisca_plugin_aggregates/aggregates.py:300-315 | `set_value` on one column leaves the other column of the row alone |
| Totals.SetValue | openfisca_plugin_aggregates/aggregates.py:298-315 | `set_value` writes one cell, creates a missing row with NaN elsewhere, and changes no other row |
| Totals.AccumulateSpec | openfisca_plugin_aggregates/aggregates.py:298-306 | a running sum succeeds exactly when every part is listed, and then equals the left-to-right sum of their cells; otherwise it fails on a missing part |
| Totals.WithSums | openfisca_plugin_aggregates/aggregates.py:297-307 | the sums of one pass add the `logt` row and no other, and can only raise a KeyError on a variable the table does not list |
| Totals.DeriveColumn | openfisca_plugin_aggregates/aggregates.py:295-315 | one pass adds the `logt` row and no other, and can only raise a KeyError on a variable the table does not list |
| Totals.Derive | openfisca_plugin_aggregates/aggregates.py:295-315 | the two passes add the `logt` row and no other, and can only raise a KeyError on a variable the table does not list |
| Totals.NegateAmounts | openfisca_plugin_aggregates/aggregates.py:312-315 | negating the levies fails exactly when one is not listed, and keeps the set of rows |
| Totals.NegateAmountsRows | openfisca_plugin_aggregates/aggregates.py:312-315 | only the levies' amounts change sign; their beneficiaries and every other row stay as they were |
| Totals.LoadTotals | openfisca_plugin_aggregates/aggregates.py:272-322 | a table is loaded only when no filename is given, the store opens and the chosen year is a column of both of its tables |
| Totals.SumsPass | openfisca_plugin_aggregates/aggregates.py:297-307 | one pass sets `logt` to the sum of the housing parts and `rsa` to the sum of the minimum-income parts, and changes no other row |
| Totals.AmountPass | openfisca_plugin_aggregates/aggregates.py:295-315 | the amount pass writes the two sums and negates the levies' amounts, leaving every beneficiary cell as loaded |
| Totals.BenefPass | openfisca_plugin_aggregates/aggregates.py:295-307 | the beneficiary pass writes the two sums and changes no amount |
| Totals.DeriveSucceeds | openfisca_plugin_aggregates/aggregates.py:295-317 | the derivation succeeds exactly when every part and levy is listed |
| Totals.AmountPassKeepsBeneficiaries | openfisca_plugin_aggregates/aggregates.py:295-315 | the beneficiary parts that the second pass sums are those that were loaded |
| Totals.DerivedLogt | openfisca_plugin_aggregates/aggregates.py:297-301 | `logt` is the sum of the housing parts in both columns |
| Totals.DerivedRsa | openfisca_plugin_aggregates/aggregates.py:303-307 | `rsa` is the sum of `rmi` and `rsa` in both columns |
| Totals.DerivedOtherRows | openfisca_plugin_aggregates/aggregates.py:309-315 | the levies have their amount negated and beneficiaries kept; every other row is unchanged |
| Totals.LoadTotalsSucceeds | openfisca_plugin_aggregates/aggregates.py:283-322 | for a year of the store, loading gives a table exactly when every part and levy is listed in one of the year's columns |
| Totals.LoadedSums | openfisca_plugin_aggregates/aggregates.py:285-307 | the loaded `logt` and `rsa` rows are the sums of their parts' scaled cells |
| Totals.RawCells | openfisca_plugin_aggregates/aggregates.py:285-290 | the cells read back from the loaded table are the store's values over 10**6 and 10**3 |
| Totals.LoadedOtherRows | openfisca_plugin_aggregates/aggregates.py:285-315 | the loaded levies are the negated scaled amounts with scaled beneficiaries; every other variable is its scaled pair |
| Reconciliation.WithReal | openfisca_plugin_aggregates/aggregates.py:233-242 | writing the real columns succeeds exactly when the frame has one row per variable of `varlist` |
| Reconciliation.RealColumns | openfisca_plugin_aggregates/aggregates.py:233-242 | each row of the real columns holds the loaded pair of its variable, or NaN when the totals do not list it |
| Reconciliation.RealKeepsOthers | openfisca_plugin_aggregates/aggregates.py:241-242 | only the two real columns are written; every other column keeps its contents and place |
| Reconciliation.Reference | openfisca_plugin_aggregates/aggregates.py:253-260 | the reference is the default pair when `show_default` is set, else the real pair when `show_real` is set; there is none when neither is set, or when the default pair is asked for but absent |
| Reconciliation.AbsDiff | openfisca_plugin_aggregates/aggregates.py:265-267 | the absolute difference is missing exactly when either cell is, and added to the reference gives back the current cell |
| Reconciliation.RelDiff | openfisca_plugin_aggregates/aggregates.py:265-268 | the relative difference is missing exactly when either cell is or the reference is zero, and times the reference's magnitude gives back the absolute difference |
| Reconciliation.PutDiffs | openfisca_plugin_aggregates/aggregates.py:265-268 | writing the four diff columns keeps the frame well formed, with the same rows |
| Reconciliation.WithDiff | openfisca_plugin_aggregates/aggregates.py:245-268 | compute_diff on a frame, when it succeeds, keeps the frame well formed, with the same rows |
| Reconciliation.PutDiffsCodes | openfisca_plugin_aggregates/aggregates.py:265-268 | writing the diffs appends the new diff columns in the order relative then absolute |
| Reconciliation.PutDiffsOthers | openfisca_plugin_aggregates/aggregates.py:265-268 | writing the diffs leaves every other column as it was |
| Reconciliation.DiffFailures | openfisca_plugin_aggregates/aggregates.py:250-263 | compute_diff raises exactly when a column it reads is missing, naming the first one in reading order |
| Reconciliation.DiffWithoutReference | openfisca_plugin_aggregates/aggregates.py:253-260 | with no reference, the frame is returned unchanged |
| Reconciliation.DiffAgainstReference | openfisca_plugin_aggregates/aggregates.py:262-268 | with a reference, the diffs are those of the current pair against it |
| Reconciliation.DiffColumns | openfisca_plugin_aggregates/aggregates.py:265-268 | the absolute diffs are current minus reference, and the relative diffs are that over the reference's magnitude, row by row |
| Reconciliation.DiffKeepsOthers | openfisca_plugin_aggregates/aggregates.py:265-268 | only the four diff columns are written; the others keep their contents and place |
| Reconciliation.AbsDiffAntisymmetric | openfisca_plugin_aggregates/aggregates.py:267 | swapping current and reference negates the absolute difference |
| Reconciliation.RelDiffIsScaledAbsDiff | openfisca_plugin_aggregates/aggregates.py:265-268 | the relative difference is missing exactly when the absolute one is or the reference is zero, and is otherwise the absolute difference over the reference's magnitude |
| Reconciliation.EqualCellsHaveNoDifference | openfisca_plugin_aggregates/aggregates.py:265-268 | equal cells differ by zero, except for a zero reference, whose relative difference is missing |
| Loops.ListsOfRows | openfisca_plugin_aggregates/aggregates.py:137-150 | appending row by row builds the label, entity, amount and beneficiary lists, and the default lists |
| Loops.CollectLists | openfisca_plugin_aggregates/aggregates.py:137-150 | the loop over `varlist` succeeds exactly when the row function does, raises the same exception, and fills the lists with those rows |
| Loops.BuildItems | openfisca_plugin_aggregates/aggregates.py:153-160 | the items built from the lists are the item columns of the rows |
| Loops.JoinStep | openfisca_plugin_aggregates/aggregates.py:163-172 | one join keeps the frame equal to the items found so far, in `labels` order |
| Loops.ArrangeColumns | openfisca_plugin_aggregates/aggregates.py:163-172 | the loop over `labels` builds the arranged frame |
| Loops.RealLists | openfisca_plugin_aggregates/aggregates.py:233-240 | the loop over `varlist` builds the real amount and beneficiary lists |
| Loops.SumParts | openfisca_plugin_aggregates/aggregates.py:298-306 | the running-sum loop computes the specified sum or raises on the first missing part |
| Loops.NegateLevies | openfisca_plugin_aggregates/aggregates.py:312-315 | the levy loop computes the specified negation |
| Loops.DerivePass | openfisca_plugin_aggregates/aggregates.py:295-315 | one iteration of the pass loop computes the specified pass |
| AggregatesEngine.BuildTable | openfisca_plugin_aggregates/aggregates.py:123-172 | the loops of compute_aggregates compute the specified table or exception |
| AggregatesEngine.DiffTable | openfisca_plugin_aggregates/aggregates.py:250-268 | the reads and writes of compute_diff compute the specified frame or exception |
| AggregatesEngine.WriteDiffs | openfisca_plugin_aggregates/aggregates.py:265-268 | the four assignments build the specified frame |
| AggregatesEngine.RealStep | openfisca_plugin_aggregates/aggregates.py:226-242 | with totals, compute_real succeeds exactly when `varlist` and the frame are set and agree in length, and then adds both real columns; without totals the frame is returned as it was; the frame stays well formed |
| AggregatesEngine.DiffStep | openfisca_plugin_aggregates/aggregates.py:245-268 | compute_diff succeeds only on a frame that has the current amount and beneficiary columns, and keeps it well formed, with the same rows |
| AggregatesEngine.Aggregates.constructor | openfisca_plugin_aggregates/aggregates.py:36-61 | a new object has no varlist, filter, totals or frame; `show_default` is off and `show_real` is on |
| AggregatesEngine.Aggregates.SetVarList | openfisca_plugin_aggregates/aggregates.py:63-67 | sets `varlist` and changes no other field |
| AggregatesEngine.Aggregates.SetFilterBy | openfisca_plugin_aggregates/aggregates.py:69-74 | sets `filter_by` and changes no other field |
| AggregatesEngine.Aggregates.Clear | openfisca_plugin_aggregates/aggregates.py:373-376 | forgets the loaded totals and changes no other modelled field |
| AggregatesEngine.Aggregates.ComputeAggregates | openfisca_plugin_aggregates/aggregates.py:119-172 | on success, the frame becomes the specified table; on an exception, the frame is left as it was; no other field changes |
| AggregatesEngine.Aggregates.LoadAmountsFromFile | openfisca_plugin_aggregates/aggregates.py:272-322 | the totals become the loaded table, or None on any failure; no other field changes |
| AggregatesEngine.Aggregates.ComputeReal | openfisca_plugin_aggregates/aggregates.py:226-242 | with no totals the frame is untouched; otherwise the real columns are written, or the exception escapes with the frame unchanged |
| AggregatesEngine.Aggregates.ComputeDiff | openfisca_plugin_aggregates/aggregates.py:245-268 | the frame becomes the specified reconciled frame, or the exception escapes with the frame unchanged |
| AggregatesEngine.Aggregates.Compute | openfisca_plugin_aggregates/aggregates.py:105-116 | runs aggregation, loading for the simulation's year, real columns and diffs in turn; the first exception stops the sequence and leaves what the earlier steps wrote |
| AggregatesEngine.DefaultFlagsWithoutTotals | openfisca_plugin_aggregates/aggregates.py:105-116 | under the class's default flags and with no totals, the real step leaves the frame alone and the diff step raises a KeyError on `dep_real` (on `dep` for an empty `varlist`) |
| AggregatesEngine.RealAppends | openfisca_plugin_aggregates/aggregates.py:241-242 | on a frame from compute_aggregates, the real columns are appended after the others |
| AggregatesEngine.DiffAppends | openfisca_plugin_aggregates/aggregates.py:253-268 | with the real pair as reference, compute_diff succeeds and appends the four diff columns, relative first |
| AggregatesEngine.RealThenDiffCodes | openfisca_plugin_aggregates/aggregates.py:241-268 | the real step then the diff step append six columns to the frame's columns, in the order written |
| AggregatesEngine.DefaultFlagsWithTotalsColumns | openfisca_plugin_aggregates/aggregates.py:105-116 | for a non-empty `varlist`, under the default flags with totals loaded, the real and diff steps succeed and the final column order departs from `labels` |
| AggregatesEngine.DiffsOutOfOrder | openfisca_plugin_aggregates/aggregates.py:42-55 | columns ending real pair, relative pair, absolute pair are never in `labels` order |
| AggregatesEngine.DefaultFlagsWithTotalsDiffs | openfisca_plugin_aggregates/aggregates.py:105-116 | for a non-empty `varlist`, under the default flags with totals loaded, the real and diff steps succeed and the diff columns compare the current pair with the real pair |

## Left out

- The GUI side of the plugin (widgets, the plugin registration, the table
  views) is not part of this model.
- `save_table` and `create_description` (lines 324-370) write files and read
  the clock. They are not modelled.
- `get_aggregates` (lines 378-379) evaluates the frame and returns nothing. It
  is not modelled.
- `set_simulation`, `set_default_var_list`, `set_default_filter_by_list` and
  `set_default_filter_by` (lines 76-103) read the simulation engine and its
  configuration. Instead, the simulation is a value passed to the methods that
  use it, and the default `varlist` is whatever `SetVarList` was given.
- Opening the HDF store is I/O. The store is a parameter, and `None` stands for
  a store that cannot be opened.
- `data_dir` is never bound when a filename is given, so that path always ends
  in the caught exception. The model returns `None` for it without naming the
  file.
- The `warnings.warn` output on a failed load is left out. Only the resulting
  `None` is modelled.
- `Aggregates.Clear`: it also resets the `data` and `data_default` attributes.
  No modelled operation reads or writes them, so they are not fields of the
  class.
- `show_diff` is never read by the modelled operations, so it is not a field.
- Label texts (the French captions in `labels`) are not modelled. A column is
  named by its key, and `Tables.Key` gives the key's text.
- Float64 arithmetic is exact real arithmetic here. NaN and the infinities are
  one value (`None`), so overflow to infinity and the sign of an infinite
  relative difference are not modelled.
- pandas index alignment is not modelled, because every list built from
  `varlist` shares the same positional index. Neither is the outer join's
  handling of duplicate index labels.
- The engine's series are taken as positionally aligned: for each entity, the
  value, weight and filter series have one length (`Simulations.Aligned`).
  `aggregated_by_entity` is not part of this model.
- `Totals.Raw`: it models the extra `logt` row as replacing a `logt` row that
  the store might already list, whereas `DataFrame.append` would keep both.
- Python 2 dict iteration order in the `from_items` call is not modelled. The
  joins over `labels` re-order the columns in any case, and
  `Aggregation.Arrange` states the resulting order.
