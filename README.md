# Inventory ageing and ticker table names, in Dafny

This project models the inventory-ageing report of
`Inventory_ageing/models/Inventory_ageing.py` and the table-name rule of
`equity_market_etl/data_ingestion/fetch_ohlcv.py`, and proves properties of
both.

**Inventory ageing.** Each input row holds seven current quantities QTY_1..7
and seven restated quantities N_QTY_1..7. Band 7 is the oldest (over a year)
and band 1 the newest (0-30 days). `process_dataframe` works through the
bands from 7 down to 1:

- Band 7 opens with QTY_7 - N_QTY_7.
- Each younger band takes its N_QTY as a pool and walks the diffs of every
  older band, oldest first, offsetting each diff against the pool.
- The band's own diff is its QTY minus what is left of the pool, and that
  residual is written back over its N_QTY.
- The seven diffs are rounded half-even to hundredths and stored as
  LV_DIFF1..7.

The rest of the model function then:

- values the diffs at VAL;
- totals them;
- rounds every numeric column up to whole hundredths;
- sorts by (MATERIAL_ID, PLANT_ID, STORAGE_LOCATION, BATCH_NUMBER);
- drops rows whose total is 0;
- renames the remaining columns to day ranges.

The modules:

- `Cents` holds the two rounding rules over exact values.
- `Allocation` holds the cascade of one row. It has three forms:
  - the imperative method `Allocate`, which works over two arrays the way the
    source works over `lv_diffs` and the row's cells;
  - the specification function `Cascade`, built from one band step
    (`SettleBand`) and one offset walk (`WalkRange`);
  - the lemmas about `Cascade`.
- `KeyOrder` holds Python's string order and the four-column sort key.
- `Ageing` holds the whole table.
  - Rows are updated in place in an array by `ProcessDataframe`.
  - Valuation, totals and rounding are per-row functions.
  - Sorting, filtering and projection are pure functions on sequences.
  - `Model` runs it all end to end and is proved equal to the function
    `AgeingReport`.
  - Which optional columns a table has is given by a `Schema`: the QTY and
    N_QTY bands present, and whether VAL is present.

Amounts are exact rationals (`real`). `round(x, 2)` is nearest hundredth with
ties to even. `np.ceil(x * 100) / 100` is the least whole number of
hundredths not below x.

**Table names.** `SanitizeTableName` lower-cases the ticker as Python's
`str.lower` does, replaces everything outside `[a-zA-Z0-9]` with `_`, and
prefixes `ohlcv_`.

Two readings of the cascade that might be expected do not hold of the code.
This model follows the code in both cases:

- A band's reported diff is what is left after the younger bands have
  offset it, not its diff when it was settled. For QTY = [0,0,0,0,0,5,10]
  and N_QTY = [0,0,0,0,2,6,4], band 7 opens at 6 and band 6 at 5, but
  the reported diffs are [0,0,0,0,0,3,0] (`Allocation.WorkedExample`).
- A pool does not only shrink. A negative older diff passes the
  `pool >= diff` test and adds its magnitude to the pool
  (`Allocation.NegativeDiffRefillsPool`).

## Model

| member | source | states |
|---|---|---|
| Cents.CeilToCents | Inventory_ageing/models/Inventory_ageing.py:140-141 | the result is a whole number of hundredths, not below x and less than one hundredth above it |
| Cents.CeilToCentsIsLeast | Inventory_ageing/models/Inventory_ageing.py:140-141 | no whole-hundredth value that is at least x lies below the result |
| Cents.CeilToCentsIdempotent | Inventory_ageing/models/Inventory_ageing.py:140-141 | a value already in whole hundredths is unchanged |
| Cents.CeilToCentsExamples | Inventory_ageing/models/Inventory_ageing.py:141 | rounding goes toward +infinity for negative values too: -1.234 gives -1.23, 1.236 gives 1.24, -0.001 gives 0 |
| Cents.RoundHalfEvenToCents | Inventory_ageing/models/Inventory_ageing.py:102 | the result is in whole hundredths, at most half a hundredth from x, and on a tie its hundredths are even |
| Cents.RoundHalfEvenIsNearest | Inventory_ageing/models/Inventory_ageing.py:102 | no whole-hundredth value is closer to x than the result |
| Cents.RoundHalfEvenIdempotent | Inventory_ageing/models/Inventory_ageing.py:102 | a value already in whole hundredths is unchanged |
| Allocation.Open | Inventory_ageing/models/Inventory_ageing.py:20 | band 7 opens with QTY_7 minus N_QTY_7, every younger diff is 0, and no N_QTY is written yet |
| Allocation.Offset | Inventory_ageing/models/Inventory_ageing.py:22-44 | one offset step: either the diff is settled or the pool is empty; diff minus pool is conserved; a non-negative pool stays non-negative; it pays off as much of a non-negative diff as it can; a negative diff is cleared into the pool; band 6 leaves the diff alone when its pool is 0 |
| Allocation.GuardsAgree | Inventory_ageing/models/Inventory_ageing.py:22-44 | band 6's test (pool non-zero) and the younger bands' test (diff non-zero) act alike exactly unless one of the two is 0 while the other is negative |
| Allocation.WalkRange | Inventory_ageing/models/Inventory_ageing.py:36-44 | a walk over the older diffs touches only those slots and keeps a non-negative pool non-negative |
| Allocation.WalkConserves | Inventory_ageing/models/Inventory_ageing.py:36-44 | a walk only moves amounts between the pool and the diffs: the sum of the walked diffs minus the pool is the same before and after |
| Allocation.WalkOldestFirst | Inventory_ageing/models/Inventory_ageing.py:36-44 | with non-negative values: the pool ends at what exceeds all the walked diffs, and each diff keeps only what the pool could not cover after every older diff was paid in full |
| Allocation.PoolExhaustedLeavesDiff | Inventory_ageing/models/Inventory_ageing.py:36-44 | a diff whose older diffs already absorb the whole pool is left unchanged |
| Allocation.SettleBand | Inventory_ageing/models/Inventory_ageing.py:35-46 | settling a band leaves younger diffs untouched, writes only this band's N_QTY, and makes its diff its QTY minus its residual pool |
| Allocation.SettleFrom | Inventory_ageing/models/Inventory_ageing.py:17-98 | after settling bands 7 down to k: younger N_QTY and N_QTY_7 untouched, younger diffs still 0, band k's diff is its QTY minus its residual |
| Allocation.SettleConserves | Inventory_ageing/models/Inventory_ageing.py:17-98 | the settled diffs sum to the QTY total minus the N_QTY total over the settled bands |
| Allocation.Cascade | Inventory_ageing/models/Inventory_ageing.py:17-98 | the seven diffs sum to total QTY minus total N_QTY; band 1's diff is QTY_1 minus its residual; N_QTY_7 is unchanged |
| Allocation.Allocate | Inventory_ageing/models/Inventory_ageing.py:15-98 | the imperative cascade over two arrays returns exactly `Cascade`'s diffs and residual pools |
| Allocation.SettleBandSix | Inventory_ageing/models/Inventory_ageing.py:22-33 | the in-place settling of band 6 (its pool against diff7, only when the pool is non-zero) leaves the arrays as `SettleBand` says |
| Allocation.SettleYounger | Inventory_ageing/models/Inventory_ageing.py:35-98 | the in-place settling of any one of bands 5..1 leaves the arrays as `SettleBand` says |
| Allocation.WorkedExample | Inventory_ageing/models/Inventory_ageing.py:17-59 | QTY [0,0,0,0,0,5,10] with N_QTY [0,0,0,0,2,6,4] gives diffs [0,0,0,0,0,3,0] |
| Allocation.IdleBands | Inventory_ageing/models/Inventory_ageing.py:35-98 | younger bands with QTY and N_QTY both 0 change no diff, provided the diffs left by the older bands are non-negative |
| Allocation.NegativeDiffRefillsPool | Inventory_ageing/models/Inventory_ageing.py:35-46 | band 5's pool of 1 absorbs band 6's diff of -1 and leaves a residual of 2 |
| Allocation.ResidualStays | Inventory_ageing/models/Inventory_ageing.py:45-98 | a residual written back over N_QTY is not changed by the younger bands |
| Allocation.BalancedRowHasNoMovement | Inventory_ageing/models/Inventory_ageing.py:17-98 | a row whose N_QTY equal its QTY, none negative, has all seven diffs 0 |
| Allocation.SettleKeepsCents | Inventory_ageing/models/Inventory_ageing.py:17-102 | whole-hundredth QTY and N_QTY give whole-hundredth diffs and residuals, so the rounding of line 102 changes nothing |
| KeyOrder.StrLeReflexive | Inventory_ageing/models/Inventory_ageing.py:144 | every string sorts no later than itself |
| KeyOrder.KeyLeReflexive | Inventory_ageing/models/Inventory_ageing.py:144 | every sort key sorts no later than itself |
| KeyOrder.StrLeTotal | Inventory_ageing/models/Inventory_ageing.py:144 | any two strings are ordered one way or the other |
| KeyOrder.StrLeAntisymmetric | Inventory_ageing/models/Inventory_ageing.py:144 | strings ordered both ways are equal |
| KeyOrder.StrLeTransitive | Inventory_ageing/models/Inventory_ageing.py:144 | the string order is transitive |
| KeyOrder.KeyLeTotal | Inventory_ageing/models/Inventory_ageing.py:144 | any two sort keys are ordered one way or the other |
| KeyOrder.KeyLeAntisymmetric | Inventory_ageing/models/Inventory_ageing.py:144 | keys ordered both ways are equal |
| KeyOrder.KeyLeTransitive | Inventory_ageing/models/Inventory_ageing.py:144 | the key order is transitive |
| KeyOrder.BatchTieBreak | Inventory_ageing/models/Inventory_ageing.py:144 | rows equal up to the batch sort "B1" strictly before "B2" |
| Ageing.MissingColumn | Inventory_ageing/models/Inventory_ageing.py:20-33 | no column is reported missing exactly when QTY_6, QTY_7, N_QTY_6 and N_QTY_7 are all present; a reported column is one of those four |
| Ageing.Read | Inventory_ageing/models/Inventory_ageing.py:36-98 | a band the table lacks reads as 0, as `row.get(column, 0)` gives; a present band reads its cell |
| Ageing.SumScale | Inventory_ageing/models/Inventory_ageing.py:106-122 | the total of the band values is the value of the total of the band diffs |
| Ageing.SumRoundError | Inventory_ageing/models/Inventory_ageing.py:100-102 | rounding n entries half-even to hundredths moves their sum by at most n half-hundredths |
| Ageing.CeilEachIdempotent | Inventory_ageing/models/Inventory_ageing.py:140-141 | whole-hundredth columns are unchanged by the ceiling rule |
| Ageing.RoundEachIdempotent | Inventory_ageing/models/Inventory_ageing.py:100-102 | whole-hundredth diffs are unchanged by round(x, 2) |
| Ageing.AllocatedRow | Inventory_ageing/models/Inventory_ageing.py:17-102 | processing a row writes only its N_QTY and LV_DIFF cells, keeps N_QTY_7, and leaves whole-hundredth movements |
| Ageing.AllocatedNearNetStock | Inventory_ageing/models/Inventory_ageing.py:17-102 | the seven movements of a processed row add up to total QTY minus total N_QTY, within 3.5 hundredths |
| Ageing.RoundedNear | Inventory_ageing/models/Inventory_ageing.py:100-102 | seven half-even roundings move a total by at most 3.5 hundredths either way |
| Ageing.ProcessRows | Inventory_ageing/models/Inventory_ageing.py:14-104 | a table with rows fails exactly when a strict column is missing, with that column's KeyError; an empty table never fails; otherwise every row is processed, in order |
| Ageing.BandSixWritten | Inventory_ageing/models/Inventory_ageing.py:19-33 | of a row, only N_QTY_6 is written, only when it was non-zero, and with band 6's residual pool as the cascade computes it (the write line 31 makes before line 33 looks up QTY_6) |
| Ageing.FailOnFirstRow | Inventory_ageing/models/Inventory_ageing.py:20-33 | the first row raises the missing column's KeyError; only when that column is QTY_6 has that first row's N_QTY_6 already been written, as `BandSixWritten` says, and no other row or cell changes |
| Ageing.ProcessDataframe | Inventory_ageing/models/Inventory_ageing.py:14-104 | on a table with rows and a missing strict column: fails with that column's KeyError, leaving every row as it was, except the first row's N_QTY_6 when QTY_6 is the missing column; otherwise every row is processed in place, exactly as `ProcessRows` says |
| Ageing.UpdateRows | Inventory_ageing/models/Inventory_ageing.py:15-102 | the row loop replaces every row, in place, by the step applied to it |
| Ageing.Valuate | Inventory_ageing/models/Inventory_ageing.py:106-111 | only the value columns are written, and only with VAL; each band's value is its diff at VAL, so the band values add up to the value of the total diff |
| Ageing.Totals | Inventory_ageing/models/Inventory_ageing.py:113-122 | only the two totals are written: LV_DIFF_total is the sum of the diffs, LV_DIFF_VALUE_total is 0 without VAL and the value of LV_DIFF_total at VAL on valued bands |
| Ageing.RoundRow | Inventory_ageing/models/Inventory_ageing.py:129-141 | keys and text columns are untouched; every numeric column ends in whole hundredths, and each total is rounded up by less than one hundredth |
| Ageing.RoundRowIdempotent | Inventory_ageing/models/Inventory_ageing.py:129-141 | rounding an already rounded row changes nothing |
| Ageing.FinishedQuantities | Inventory_ageing/models/Inventory_ageing.py:113-141 | for whole-hundredth diffs, the final diffs are unchanged and LV_DIFF_total is their exact sum |
| Ageing.FinishedValueTotal | Inventory_ageing/models/Inventory_ageing.py:106-141 | with VAL, LV_DIFF_VALUE_total is the rounded-up value of the final LV_DIFF_total at VAL |
| Ageing.FinishedBandValues | Inventory_ageing/models/Inventory_ageing.py:106-141 | with VAL, each LV_DIFFb_VALUE is the rounded-up value of the final LV_DIFFb at VAL |
| Ageing.FinishedWithoutValue | Inventory_ageing/models/Inventory_ageing.py:117-122 | without VAL, LV_DIFF_VALUE_total is 0 and the report row carries no band values |
| Ageing.StockQtyIsNetStock | Inventory_ageing/models/Inventory_ageing.py:14-141 | with whole-hundredth QTY and N_QTY, STOCK_QTY is exactly total QTY minus total N_QTY |
| Ageing.StockQtyNearNetStock | Inventory_ageing/models/Inventory_ageing.py:14-141 | for any amounts, STOCK_QTY lies in [net - 0.035, net + 0.045) of total QTY minus total N_QTY |
| Ageing.RoundedTotalNear | Inventory_ageing/models/Inventory_ageing.py:100-141 | after seven half-even roundings and one rounding up, a total lies between 3.5 hundredths below and 4.5 hundredths above its exact value |
| Ageing.BalancedRowTotalsZero | Inventory_ageing/models/Inventory_ageing.py:14-141 | a balanced row (N_QTY equal to QTY, none negative) ends with STOCK_QTY 0 |
| Ageing.SortByKey | Inventory_ageing/models/Inventory_ageing.py:144 | the result is sorted by the four-column key and is a permutation of the input |
| Ageing.InsertKeepsSorted | Inventory_ageing/models/Inventory_ageing.py:144 | inserting a row into a sorted sequence keeps it sorted |
| Ageing.InsertStable | Inventory_ageing/models/Inventory_ageing.py:144 | inserting a row puts it before every row with the same key and keeps their order |
| Ageing.WithKeyCons | Inventory_ageing/models/Inventory_ageing.py:144 | the rows with one key, on a row put in front: that row comes first exactly when it has the key |
| Ageing.SortByKeyStable | Inventory_ageing/models/Inventory_ageing.py:144 | the sort is stable: the rows with any one key keep their table order |
| Ageing.EqualKeysKeepOrder | Inventory_ageing/models/Inventory_ageing.py:144 | two rows with the same key stay in table order |
| Ageing.Keep | Inventory_ageing/models/Inventory_ageing.py:157 | the filter keeps exactly the rows whose LV_DIFF_total is not 0, each as often as in the input (their order: `KeepStable`) |
| Ageing.KeepCons | Inventory_ageing/models/Inventory_ageing.py:157 | the filter on a row put in front: that row is kept exactly when its LV_DIFF_total is not 0, ahead of the filtered rest |
| Ageing.KeepStable | Inventory_ageing/models/Inventory_ageing.py:157 | the filter keeps rows in input order: the kept rows with any one key are that key's input rows, filtered, in order |
| Ageing.SortedAndKeptStable | Inventory_ageing/models/Inventory_ageing.py:144-157 | sorting then filtering keeps the rows with any one key in input order |
| Ageing.KeepKeepsSorted | Inventory_ageing/models/Inventory_ageing.py:144-157 | filtering a sorted table keeps it sorted |
| Ageing.Project | Inventory_ageing/models/Inventory_ageing.py:146-178 | a report row keeps the row's sort key, reports LV_DIFF_total as STOCK_QTY and LV_DIFF_VALUE_total as STOCK_VALUE, and has band values exactly when VAL exists |
| Ageing.AgeingReport | Inventory_ageing/models/Inventory_ageing.py:4-184 | the report fails exactly when a table with rows lacks a strict column, with that column's KeyError; otherwise it has the report columns and at most one row per table row |
| Ageing.Model | Inventory_ageing/models/Inventory_ageing.py:4-184 | the in-place pipeline returns exactly `AgeingReport` of the table |
| Ageing.SelectedRows | Inventory_ageing/models/Inventory_ageing.py:144-157 | the report rows are, as a multiset, the finished rows with non-zero LV_DIFF_total; they are sorted by key; none has a zero total |
| Ageing.SelectedStable | Inventory_ageing/models/Inventory_ageing.py:144-157 | the finished rows with any one key reach the report in their table order, less those with zero LV_DIFF_total |
| Ageing.SortedAndKept | Inventory_ageing/models/Inventory_ageing.py:144-157 | sorting, then dropping rows without movement, keeps every moving row as often as before, in key order |
| Ageing.ReportSortedAndMoving | Inventory_ageing/models/Inventory_ageing.py:144-178 | the rows of a report are in ascending key order and none has STOCK_QTY 0 |
| Ageing.MissingColumnFails | Inventory_ageing/models/Inventory_ageing.py:15-33 | a table with rows that lacks a strict column fails with that column's KeyError |
| Ageing.EmptyTableGivesEmptyReport | Inventory_ageing/models/Inventory_ageing.py:15 | an empty table never fails, whatever columns it lacks, and gives a report without rows |
| Ageing.SelectedWithoutMovement | Inventory_ageing/models/Inventory_ageing.py:157 | a single row whose final LV_DIFF_total is 0 is dropped |
| Ageing.ReportWithoutRows | Inventory_ageing/models/Inventory_ageing.py:144-184 | when no processed row is selected, the report has its columns and no row |
| Ageing.BalancedRowUnselected | Inventory_ageing/models/Inventory_ageing.py:14-157 | a balanced row is processed without error and then left out of the report |
| Ageing.BalancedRowIsDropped | Inventory_ageing/models/Inventory_ageing.py:4-184 | a table of one balanced row gives a report without rows |
| Ageing.RenameChangesMapped | Inventory_ageing/models/Inventory_ageing.py:159-178 | exactly the sixteen mapped columns get a new name |
| Ageing.UpperIsUpper | Inventory_ageing/models/Inventory_ageing.py:179 | no lower-case ASCII letter is left, and upper-casing twice changes nothing more |
| Ageing.UpperKeepsUpper | Inventory_ageing/models/Inventory_ageing.py:179 | a name without lower-case ASCII letters is its own upper case |
| Ageing.ColumnsLength | Inventory_ageing/models/Inventory_ageing.py:155 | the report has at most as many columns as are required |
| Ageing.ColumnsWithValue | Inventory_ageing/models/Inventory_ageing.py:146-179 | with VAL, every required column is in the report, in order, renamed and upper-cased |
| Ageing.ColumnsWithoutValue | Inventory_ageing/models/Inventory_ageing.py:146-179 | without VAL, a name is a report column exactly when it is the report name of a required column other than the seven value columns |
| Ageing.ColumnsDropValues | Inventory_ageing/models/Inventory_ageing.py:146-179 | without VAL, the report columns are those with VAL of the required columns other than the seven value columns |
| Ageing.ColumnsWithoutValueInOrder | Inventory_ageing/models/Inventory_ageing.py:146-179 | without VAL, the report columns are the required columns other than the seven value columns, in their order, renamed and upper-cased |
| Ageing.OldestBandColumns | Inventory_ageing/models/Inventory_ageing.py:155-179 | LV_DIFF7 becomes OVER_1_YEAR_QUANTITY, and LV_DIFF7_VALUE becomes OVER_1_YEAR_VALUE when VAL exists and is absent otherwise |
| TableName.LowerChar | equity_market_etl/data_ingestion/fetch_ohlcv.py:16 | lower-casing a character never yields an ASCII capital, and yields one character except for CAPITAL I WITH DOT ABOVE, which yields two |
| TableName.Lower | equity_market_etl/data_ingestion/fetch_ohlcv.py:16 | a lower-cased string has no ASCII capital |
| TableName.ReplaceNonAlnum | equity_market_etl/data_ingestion/fetch_ohlcv.py:16 | the length is kept, every character of `[a-zA-Z0-9]` is kept and every other becomes `_`, so only those and `_` remain, and a string of that class is unchanged |
| TableName.ReplaceNonAlnumIdempotent | equity_market_etl/data_ingestion/fetch_ohlcv.py:16 | replacing a second time changes nothing |
| TableName.SanitizeTableName | equity_market_etl/data_ingestion/fetch_ohlcv.py:14-16 | every table name starts with `ohlcv_` |
| TableName.NameCharacters | equity_market_etl/data_ingestion/fetch_ohlcv.py:15-16 | every character after the prefix is a lower-case ASCII letter, a digit or `_` |
| TableName.SuffixCharacters | equity_market_etl/data_ingestion/fetch_ohlcv.py:16 | the part after the prefix holds only lower-case ASCII letters, digits and `_` |
| TableName.LowerPointwise | equity_market_etl/data_ingestion/fetch_ohlcv.py:16 | without CAPITAL I WITH DOT ABOVE, lower-casing keeps the length and maps position to position |
| TableName.Pointwise | equity_market_etl/data_ingestion/fetch_ohlcv.py:16 | without CAPITAL I WITH DOT ABOVE, the name is the prefix plus one character per ticker character: ASCII letters lower-cased, KELVIN SIGN as `k`, digits kept, anything else `_` |
| TableName.NameCharOf | equity_market_etl/data_ingestion/fetch_ohlcv.py:16 | one ticker character, lower-cased and then replaced, becomes its name character |
| TableName.AsciiLength | equity_market_etl/data_ingestion/fetch_ohlcv.py:16 | an ASCII ticker gives a name exactly six characters longer |
| TableName.CapitalIWithDotGrows | equity_market_etl/data_ingestion/fetch_ohlcv.py:16 | CAPITAL I WITH DOT ABOVE gives `ohlcv_i_`, two characters for one |
| TableName.CrudeOilFutures | equity_market_etl/config/settings.py:12 | the configured ticker `CL=F` gives `ohlcv_cl_f` |
| TableName.LowerKeepsNameChars | equity_market_etl/data_ingestion/fetch_ohlcv.py:16 | lower-casing leaves a string of name characters unchanged |
| TableName.SuffixIdempotent | equity_market_etl/data_ingestion/fetch_ohlcv.py:16 | sanitising the part after the prefix a second time changes nothing |
| TableName.NotIdempotent | equity_market_etl/data_ingestion/fetch_ohlcv.py:16 | sanitising a table name again never gives the same name, because the prefix is added again |

## Left out

- Loading the input through `dbt.ref` and `to_pandas` (lines 6-8) is left out. So is handing the frame back to dbt. Both are I/O, and the table is a parameter here.
- TableName: tickers are sequences of Unicode scalar values. Lone surrogates, which a Python `str` can hold, are not covered.
- Binary floating point is not modelled. Amounts are exact, so float artefacts of `x * 100`, `round` and the sums are not captured. For example, `round(2.675, 2)` gives 2.67 on floats.
- Line 12 creates LV_DIFF1..7 as integer columns, and line 102 writes rounded, generally non-integral, floats into them with `df.at`. Whether pandas then upcasts the column, warns or raises depends on its version; the model stores every movement as an exact number. NaN cells are not modelled: every cell the model reads holds a number.
- The identity columns MATERIAL_ID, PLANT_ID, STORAGE_LOCATION and BATCH_NUMBER are assumed present and to hold strings. A table without them fails in `sort_values`, which is not modelled.
- TOTAL_QTY (line 132) is not modelled. It is rounded but never reported.
- The descriptive columns MATERIAL_DESCRIPTION, PLANT_NAME, BASE_UNIT_OF_MEASURE and UNIT are row fields and are assumed present. The report always lists them, while line 155 would leave out one the table lacks.
- Ageing.ProcessDataframe: the missing-column check is made once, before the loop, as the source's first row raises. When QTY_6 is the missing column, the first row's N_QTY_6 has already been written (line 31), and the model writes it too. The KeyError leaves `model`, so the frame holding that row is discarded, which the model does not represent. The loop applies the cascade function `Allocated` to each row. The imperative per-row method `Allocate` is proved to compute the same ledger, but the loop does not call it.
- Ageing.ProcessDataframe: N_QTY_1..5 written back to a table without those columns create them in the source. Later rows still read them as 0 through `row.get`, so the model's fixed schema gives the same values.
- Ageing.Columns: the column-existence filter of line 155 is modelled for the seven value columns only. LV_DIFF1..7 and the two totals always exist (lines 12 and 113-120). The identity and descriptive columns are assumed present, as said above.
- TableName.LowerChar: `str.lower` is exact for ASCII, KELVIN SIGN and CAPITAL I WITH DOT ABOVE. Every other character is left unchanged. Its real lower case is non-ASCII as well and is replaced by `_`, so the table name is the same; this includes the final-sigma rule.
- Ageing.Upper: `str.upper` of the column names is modelled on ASCII. Every column name is ASCII.
- The rest of `fetch_ohlcv.py` (`run_etl`, the download) is not part of this model: it is network I/O.
