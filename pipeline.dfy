/**
 * The inventory-ageing model as a whole (Inventory_ageing/models/Inventory_ageing.py):
 * the cascade is run on every row of the input table, the movements are
 * valued at VAL, totalled, rounded up to whole hundredths, sorted by the
 * four identity columns, rows without net movement are dropped and the
 * remaining columns are renamed to the day ranges of the report.
 *
 * A row is one record of the input table. Which optional columns the table
 * carries is given by a `Schema`; a row's cell for a column the table does
 * not carry is never read.
 */
module Ageing {
  import opened Cents
  import opened Allocation
  import opened KeyOrder

  datatype Option<T> = None | Some(value: T)

  /**
   * QTY_b is a column of the table for every band b in `qtyBands`, N_QTY_b
   * for every b in `nQtyBands` (bands are 1..7); `hasVal` says whether the
   * VAL column is there.
   */
  datatype Schema = Schema(qtyBands: set<int>, nQtyBands: set<int>, hasVal: bool)

  /**
   * One row of the table. Slot i of a vector is band i + 1: `qty` holds
   * QTY_1..7, `nQty` N_QTY_1..7, `lvDiff` LV_DIFF1..7 and `lvValue`
   * LV_DIFF1_VALUE..LV_DIFF7_VALUE; `diffTotal` and `valueTotal` are
   * LV_DIFF_total and LV_DIFF_VALUE_total.
   */
  datatype Row = Row(
    key: Key,
    materialDescription: string, plantName: string, baseUnitOfMeasure: string, unit: string,
    qty: Vec7, nQty: Vec7, val: real,
    lvDiff: Vec7, lvValue: Vec7, diffTotal: real, valueTotal: real)

  /** A lookup of a column the table does not have. */
  datatype Error = KeyError(column: string)

  datatype Result<T> = Ok(value: T) | Err(error: Error)

  // ---------------------------------------------------------------------
  // Reading a row
  // ---------------------------------------------------------------------

  /**
   * The first column the cascade reads with a plain lookup and the table
   * lacks: QTY_7 and N_QTY_7 (line 20), N_QTY_6 (line 23), QTY_6 (line 33).
   */
  function MissingColumn(schema: Schema): (r: Option<string>)
    ensures r.None? <==> {6, 7} <= schema.qtyBands && {6, 7} <= schema.nQtyBands
    ensures r.Some? ==> r.value in ["QTY_7", "N_QTY_7", "N_QTY_6", "QTY_6"]
  {
    if 7 !in schema.qtyBands then Some("QTY_7")
    else if 7 !in schema.nQtyBands then Some("N_QTY_7")
    else if 6 !in schema.nQtyBands then Some("N_QTY_6")
    else if 6 !in schema.qtyBands then Some("QTY_6")
    else None
  }

  /** The cells of a vector as read with `row.get(column, 0)`: an absent band reads 0. */
  function Read(bands: set<int>, v: Vec7): (r: Vec7)
    ensures forall i :: 0 <= i < 7 ==> r[i] == if i + 1 in bands then v[i] else 0.0
  {
    seq(7, i requires 0 <= i < 7 => if i + 1 in bands then v[i] else 0.0)
  }

  // ---------------------------------------------------------------------
  // Vectors of amounts
  // ---------------------------------------------------------------------

  /** `round(x, 2)` of every entry. */
  function RoundEach(s: seq<real>): (r: seq<real>)
    ensures |r| == |s| && AllCents(r)
    ensures forall i :: 0 <= i < |s| ==> r[i] == RoundHalfEvenToCents(s[i])
  {
    seq(|s|, i requires 0 <= i < |s| => RoundHalfEvenToCents(s[i]))
  }

  /** `np.ceil(x * 100) / 100` of every entry. */
  function CeilEach(s: seq<real>): (r: seq<real>)
    ensures |r| == |s| && AllCents(r)
    ensures forall i :: 0 <= i < |s| ==> r[i] == CeilToCents(s[i])
  {
    seq(|s|, i requires 0 <= i < |s| => CeilToCents(s[i]))
  }

  /** The value of quantity q at unit value v. */
  function Value(q: real, v: real): real { q * v }

  /** Every entry valued at v. */
  function Scale(s: seq<real>, v: real): (r: seq<real>)
    ensures |r| == |s|
    ensures forall i :: 0 <= i < |s| ==> r[i] == Value(s[i], v)
  {
    seq(|s|, i requires 0 <= i < |s| => Value(s[i], v))
  }

  /** Valuing every entry values the sum. */
  lemma {:induction false} SumScale(s: seq<real>, v: real)
    ensures Sum(Scale(s, v)) == Value(Sum(s), v)
  {
    if s != [] {
      assert Scale(s, v)[1..] == Scale(s[1..], v);
      SumScale(s[1..], v);
    }
  }

  /** A sum of whole-cent amounts is a whole-cent amount. */
  lemma {:induction false} SumCents(s: seq<real>)
    requires AllCents(s)
    ensures WholeCents(Sum(s))
  {
    if s == [] {
      assert WholeCents(0.0);
    } else {
      SumCents(s[1..]);
      WholeCentsAdd(s[0], Sum(s[1..]));
    }
  }

  /** Rounding n entries to hundredths moves their sum by at most n half-cents. */
  lemma {:induction false} SumRoundError(s: seq<real>)
    ensures Abs(Sum(RoundEach(s)) - Sum(s)) <= 0.005 * |s| as real
  {
    if s != [] {
      assert RoundEach(s)[1..] == RoundEach(s[1..]);
      SumRoundError(s[1..]);
    }
  }

  lemma CeilEachIdempotent(s: seq<real>)
    requires AllCents(s)
    ensures CeilEach(s) == s
  {
    forall i | 0 <= i < |s| ensures CeilEach(s)[i] == s[i] {
      CeilToCentsIdempotent(s[i]);
    }
  }

  lemma RoundEachIdempotent(s: seq<real>)
    requires AllCents(s)
    ensures RoundEach(s) == s
  {
    forall i | 0 <= i < |s| ensures RoundEach(s)[i] == s[i] {
      RoundHalfEvenIdempotent(s[i]);
    }
  }

  // ---------------------------------------------------------------------
  // process_dataframe
  // ---------------------------------------------------------------------

  /**
   * One row after `process_dataframe` (lines 17-102): the residual pools
   * are written back over N_QTY_1..6 (lines 31, 45, 58, 71, 84 and 97; the
   * cell of N_QTY_6 only changes when its pool was used), N_QTY_7 keeps its
   * value, and LV_DIFF1..7 hold the remaining diffs rounded half-even to
   * hundredths (lines 101-102).
   */
  function Allocated(schema: Schema, row: Row): Row {
    WriteBack(row, Cascade(Read(schema.qtyBands, row.qty), Read(schema.nQtyBands, row.nQty)))
  }

  /**
   * What `process_dataframe` writes into a row: only the N_QTY and LV_DIFF
   * cells change, N_QTY_7 keeps its value, and the movements are whole
   * hundredths.
   */
  lemma AllocatedRow(schema: Schema, row: Row)
    ensures var r := Allocated(schema, row);
      r == row.(nQty := r.nQty, lvDiff := r.lvDiff) && r.nQty[6] == Read(schema.nQtyBands, row.nQty)[6]
    ensures AllCents(Allocated(schema, row).lvDiff)
  {
  }

  /** The movements add up to the net stock, up to seven half-cent roundings. */
  lemma AllocatedNearNetStock(schema: Schema, row: Row)
    ensures var net := Sum(Read(schema.qtyBands, row.qty)) - Sum(Read(schema.nQtyBands, row.nQty));
      net - 0.035 <= Sum(Allocated(schema, row).lvDiff) <= net + 0.035
  {
    var lv := Cascade(Read(schema.qtyBands, row.qty), Read(schema.nQtyBands, row.nQty)).lv;
    AllocatedFields(schema, row);
    RoundedNear(lv);
  }

  /** The cascade's pools over N_QTY_1..7 and its diffs, rounded, over LV_DIFF1..7. */
  function WriteBack(row: Row, c: Ledger): Row {
    row.(nQty := c.n, lvDiff := RoundEach(c.lv))
  }

  /** Seven half-even roundings move a total by at most 3.5 cents. */
  lemma RoundedNear(lv: seq<real>)
    requires |lv| == 7
    ensures Sum(lv) - 0.035 <= Sum(RoundEach(lv)) <= Sum(lv) + 0.035
  {
    var rounded := Sum(RoundEach(lv));
    SumRoundError(lv);
    assert Abs(rounded - Sum(lv)) <= 0.035;
  }

  /** Every row of a table processed. */
  function AllocateAll(schema: Schema, rows: seq<Row>): (r: seq<Row>)
    ensures |r| == |rows|
    ensures forall i :: 0 <= i < |rows| ==> r[i] == Allocated(schema, rows[i])
  {
    seq(|rows|, i requires 0 <= i < |rows| => Allocated(schema, rows[i]))
  }

  /** `process_dataframe` on the whole table, as a value. */
  function ProcessRows(schema: Schema, table: seq<Row>): (r: Result<seq<Row>>)
    // an empty table never reaches a strict lookup
    ensures r.Err? <==> table != [] && MissingColumn(schema).Some?
    ensures r.Err? ==> r.error == KeyError(MissingColumn(schema).value)
    ensures r.Ok? ==> |r.value| == |table|
    ensures r.Ok? ==> forall i :: 0 <= i < |table| ==> r.value[i] == Allocated(schema, table[i])
  {
    if table == [] then Ok([])
    else match MissingColumn(schema)
      case Some(column) => Err(KeyError(column))
      case None => Ok(AllocateAll(schema, table))
  }

  /**
   * Lines 19-31 on a row of a table that lacks QTY_6: band 6's pool is
   * offset against diff7 and, when it was non-zero, its residual is stored
   * as N_QTY_6, just before line 33 raises.
   */
  function BandSixWritten(row: Row): (r: Row)
    // only N_QTY_6 is written, and only when its pool was non-zero
    ensures r == row.(nQty := row.nQty[5 := r.nQty[5]])
    ensures row.nQty[5] == 0.0 ==> r == row
    // it holds band 6's residual pool, as the cascade computes it
    ensures r.nQty[5] == SettleFrom(row.qty, row.nQty, 5).n[5]
  {
    SettleFromStep(row.qty, row.nQty, 5);
    WalkUnfold(PoolNonZero, row.nQty[5], Open(row.qty, row.nQty).lv, 6, 7);
    row.(nQty := row.nQty[5 := Offset(PoolNonZero, row.nQty[5], row.qty[6] - row.nQty[6]).0])
  }

  /**
   * `process_dataframe` (lines 14-104): rows are updated in place, one at a
   * time, and an empty table is returned unchanged whatever it lacks. A
   * missing strict column raises on the first row. When that column is
   * QTY_6 (line 33), line 31 has already stored band 6's residual pool in
   * the first row's N_QTY_6; no other row is touched. The exception leaves
   * `model`, so nothing outside sees that row.
   */
  method ProcessDataframe(schema: Schema, rows: array<Row>) returns (err: Option<Error>)
    modifies rows
    ensures err.Some? <==> rows.Length > 0 && MissingColumn(schema).Some?
    ensures err.Some? ==> err.value == KeyError(MissingColumn(schema).value)
    ensures err.Some? && err.value.column != "QTY_6" ==> rows[..] == old(rows[..])
    ensures err.Some? && err.value.column == "QTY_6" ==> rows[..] == old(rows[..])[0 := BandSixWritten(old(rows[0]))]
    ensures (if err.Some? then Err(err.value) else Ok(rows[..])) == ProcessRows(schema, old(rows[..]))
  {
    ghost var before := rows[..];
    if rows.Length == 0 {
      assert ProcessRows(schema, before) == Ok(rows[..]);
      return None;
    }
    var missing := MissingColumn(schema);
    if missing.Some? {
      assert ProcessRows(schema, before) == Err(KeyError(missing.value));
      err := FailOnFirstRow(rows, missing.value);
      return;
    }
    UpdateRows(rows, row => Allocated(schema, row));
    AllRowsAllocated(schema, before, rows[..]);
    return None;
  }

  /**
   * The first row raises KeyError on `column`; when that is QTY_6, line 31
   * has already written band 6's pool into the row.
   */
  method FailOnFirstRow(rows: array<Row>, column: string) returns (err: Option<Error>)
    requires rows.Length > 0
    modifies rows
    ensures err == Some(KeyError(column))
    ensures column != "QTY_6" ==> rows[..] == old(rows[..])
    ensures column == "QTY_6" ==> rows[..] == old(rows[..])[0 := BandSixWritten(old(rows[0]))]
  {
    if column == "QTY_6" {
      rows[0] := BandSixWritten(rows[0]);
    }
    return Some(KeyError(column));
  }

  /** The loop of line 15: every row replaced, in place, by `step` of it. */
  method UpdateRows(rows: array<Row>, step: Row -> Row)
    modifies rows
    ensures forall i :: 0 <= i < rows.Length ==> rows[i] == step(old(rows[i]))
  {
    var idx := 0;
    while idx < rows.Length
      invariant 0 <= idx <= rows.Length
      invariant forall i :: 0 <= i < idx ==> rows[i] == step(old(rows[i]))
      invariant forall i :: idx <= i < rows.Length ==> rows[i] == old(rows[i])
    {
      rows[idx] := step(rows[idx]);
      idx := idx + 1;
    }
  }

  /** A non-empty table of processed rows is what `process_dataframe` returns. */
  lemma AllRowsAllocated(schema: Schema, before: seq<Row>, after: seq<Row>)
    requires MissingColumn(schema).None? && before != [] && |after| == |before|
    requires forall i :: 0 <= i < |before| ==> after[i] == Allocated(schema, before[i])
    ensures ProcessRows(schema, before) == Ok(after)
  {
    assert after == AllocateAll(schema, before);
  }

  // ---------------------------------------------------------------------
  // Valuation, totals and rounding
  // ---------------------------------------------------------------------

  /** `multiply_lv_diff_values` (lines 106-111): LV_DIFFb_VALUE exists only when VAL does. */
  function Valuate(hasVal: bool, row: Row): (r: Row)
    // only the value columns are written, and only when VAL exists
    ensures r == row.(lvValue := r.lvValue)
    ensures !hasVal ==> r == row
    ensures hasVal ==> forall i :: 0 <= i < 7 ==> r.lvValue[i] == Value(row.lvDiff[i], row.val)
    // the band values add up to the value of the total movement
    ensures hasVal ==> Sum(r.lvValue) == Value(Sum(row.lvDiff), row.val)
  {
    SumScale(row.lvDiff, row.val);
    if hasVal then row.(lvValue := Scale(row.lvDiff, row.val)) else row
  }

  /** `sum_lv_diff_and_values` (lines 113-122): a sum over no value columns is 0. */
  function Totals(hasVal: bool, row: Row): (r: Row)
    // only the two totals are written
    ensures r == row.(diffTotal := r.diffTotal, valueTotal := r.valueTotal)
    ensures r.diffTotal == Sum(row.lvDiff)
    ensures !hasVal ==> r.valueTotal == 0.0
    // on valued bands, the value total is the value of the quantity total
    ensures hasVal && row.lvValue == Scale(row.lvDiff, row.val) ==> r.valueTotal == Value(r.diffTotal, row.val)
  {
    SumScale(row.lvDiff, row.val);
    row.(diffTotal := Sum(row.lvDiff), valueTotal := if hasVal then Sum(row.lvValue) else 0.0)
  }

  /** Lines 130-141: every numeric column rounded up to whole hundredths. */
  function RoundRow(row: Row): (r: Row)
    // the identity and text columns are not touched
    ensures r.key == row.key && r.materialDescription == row.materialDescription
    ensures r.plantName == row.plantName && r.baseUnitOfMeasure == row.baseUnitOfMeasure && r.unit == row.unit
    // every numeric column ends in whole hundredths ...
    ensures AllCents(r.qty) && AllCents(r.nQty) && AllCents(r.lvDiff) && AllCents(r.lvValue)
    ensures WholeCents(r.val) && WholeCents(r.diffTotal) && WholeCents(r.valueTotal)
    // ... after being rounded up by less than one hundredth
    ensures row.diffTotal <= r.diffTotal < row.diffTotal + 0.01
    ensures row.valueTotal <= r.valueTotal < row.valueTotal + 0.01
  {
    row.(qty := CeilEach(row.qty), nQty := CeilEach(row.nQty), val := CeilToCents(row.val),
         lvDiff := CeilEach(row.lvDiff), lvValue := CeilEach(row.lvValue),
         diffTotal := CeilToCents(row.diffTotal), valueTotal := CeilToCents(row.valueTotal))
  }

  /** Rounding a rounded row again changes nothing. */
  lemma RoundRowIdempotent(row: Row)
    ensures RoundRow(RoundRow(row)) == RoundRow(row)
  {
    var r := RoundRow(row);
    CeilEachIdempotent(r.qty);
    CeilEachIdempotent(r.nQty);
    CeilEachIdempotent(r.lvDiff);
    CeilEachIdempotent(r.lvValue);
    CeilToCentsIdempotent(r.val);
    CeilToCentsIdempotent(r.diffTotal);
    CeilToCentsIdempotent(r.valueTotal);
  }

  /** A processed row after valuation, totals and rounding. */
  function Finish(hasVal: bool, row: Row): Row {
    RoundRow(Totals(hasVal, Valuate(hasVal, row)))
  }

  /** The columns of a finished row the report is made of. */
  lemma FinishFields(hasVal: bool, row: Row)
    ensures Finish(hasVal, row).key == row.key
    ensures Finish(hasVal, row).lvDiff == CeilEach(row.lvDiff)
    ensures Finish(hasVal, row).diffTotal == CeilToCents(Sum(row.lvDiff))
    ensures hasVal ==> Finish(hasVal, row).lvValue == CeilEach(Scale(row.lvDiff, row.val))
    ensures hasVal ==> Finish(hasVal, row).valueTotal == CeilToCents(Sum(Scale(row.lvDiff, row.val)))
    ensures !hasVal ==> Finish(hasVal, row).valueTotal == CeilToCents(0.0)
  {
  }

  /** Whole-cent amounts and their sum are left unchanged by the ceiling rule. */
  lemma CentsKept(d: seq<real>)
    requires AllCents(d)
    ensures CeilEach(d) == d
    ensures CeilToCents(Sum(d)) == Sum(d)
  {
    CeilEachIdempotent(d);
    SumCents(d);
    CeilToCentsIdempotent(Sum(d));
  }

  /**
   * For movements already in whole hundredths (as `process_dataframe`
   * leaves them), the final movements are unchanged and the quantity total
   * is their exact sum.
   */
  lemma FinishedQuantities(hasVal: bool, row: Row)
    requires AllCents(row.lvDiff)
    ensures Finish(hasVal, row).lvDiff == row.lvDiff
    ensures Finish(hasVal, row).diffTotal == Sum(row.lvDiff)
  {
    FinishFields(hasVal, row);
    CentsKept(row.lvDiff);
  }

  /**
   * With VAL, the value total is the rounded-up product of the final
   * quantity total with the unrounded VAL.
   */
  lemma FinishedValueTotal(row: Row)
    requires AllCents(row.lvDiff)
    ensures Finish(true, row).valueTotal == CeilToCents(Value(Finish(true, row).diffTotal, row.val))
  {
    FinishFields(true, row);
    CentsKept(row.lvDiff);
    SumScale(row.lvDiff, row.val);
  }

  /**
   * With VAL, the value of each band is the rounded-up product of its final
   * quantity with the unrounded VAL.
   */
  lemma FinishedBandValues(row: Row)
    requires AllCents(row.lvDiff)
    ensures forall i :: 0 <= i < 7 ==>
      Finish(true, row).lvValue[i] == CeilToCents(Value(Finish(true, row).lvDiff[i], row.val))
  {
    FinishFields(true, row);
    CentsKept(row.lvDiff);
  }

  /** Without VAL, the value total is 0 and the report row has no band values. */
  lemma FinishedWithoutValue(row: Row)
    ensures Finish(false, row).valueTotal == 0.0
    ensures Project(false, Finish(false, row)).value.None?
  {
    FinishFields(false, row);
    assert WholeCents(0.0);
    CeilToCentsIdempotent(0.0);
  }

  /** The movements `process_dataframe` leaves in a row. */
  lemma AllocatedFields(schema: Schema, row: Row)
    ensures Allocated(schema, row).lvDiff
         == RoundEach(Cascade(Read(schema.qtyBands, row.qty), Read(schema.nQtyBands, row.nQty)).lv)
  {
  }

  /**
   * With QTY and N_QTY given in whole hundredths, STOCK_QTY is exactly the
   * total of QTY minus the total of N_QTY: the cascade moves quantity
   * between bands but never creates or loses any.
   */
  lemma StockQtyIsNetStock(schema: Schema, row: Row)
    requires AllCents(Read(schema.qtyBands, row.qty)) && AllCents(Read(schema.nQtyBands, row.nQty))
    ensures Finish(schema.hasVal, Allocated(schema, row)).diffTotal
         == Sum(Read(schema.qtyBands, row.qty)) - Sum(Read(schema.nQtyBands, row.nQty))
  {
    var qty, nQty := Read(schema.qtyBands, row.qty), Read(schema.nQtyBands, row.nQty);
    var c := Cascade(qty, nQty);
    SettleKeepsCents(qty, nQty, 0);
    RoundEachIdempotent(c.lv);
    AllocatedFields(schema, row);
    FinishedQuantities(schema.hasVal, Allocated(schema, row));
  }

  /**
   * For any amounts, STOCK_QTY is within the error of seven half-even
   * roundings and one rounding up of the net stock.
   */
  lemma StockQtyNearNetStock(schema: Schema, row: Row)
    ensures var net := Sum(Read(schema.qtyBands, row.qty)) - Sum(Read(schema.nQtyBands, row.nQty));
      var total := Finish(schema.hasVal, Allocated(schema, row)).diffTotal;
      net - 0.035 <= total < net + 0.045
  {
    var qty, nQty := Read(schema.qtyBands, row.qty), Read(schema.nQtyBands, row.nQty);
    AllocatedFields(schema, row);
    FinishFields(schema.hasVal, Allocated(schema, row));
    RoundedTotalNear(Cascade(qty, nQty).lv);
  }

  /** Seven half-even roundings and a rounding up move a total by less than 4.5 cents. */
  lemma RoundedTotalNear(lv: seq<real>)
    requires |lv| == 7
    ensures Sum(lv) - 0.035 <= CeilToCents(Sum(RoundEach(lv))) < Sum(lv) + 0.045
  {
    var rounded := Sum(RoundEach(lv));
    RoundedNear(lv);
    var c := CeilToCents(rounded);
    assert rounded <= c < rounded + 0.01;
  }

  /** A row whose N_QTY restate its QTY exactly (none negative) ends with STOCK_QTY 0. */
  lemma BalancedRowTotalsZero(schema: Schema, row: Row)
    requires Read(schema.qtyBands, row.qty) == Read(schema.nQtyBands, row.nQty)
    requires NonNegative(Read(schema.nQtyBands, row.nQty))
    ensures Finish(schema.hasVal, Allocated(schema, row)).diffTotal == 0.0
  {
    var qty, nQty := Read(schema.qtyBands, row.qty), Read(schema.nQtyBands, row.nQty);
    BalancedRowHasNoMovement(qty, nQty);
    AllocatedFields(schema, row);
    FinishFields(schema.hasVal, Allocated(schema, row));
    ZeroTotal();
  }

  /** No movement in any band rounds to a total of 0. */
  lemma ZeroTotal()
    ensures CeilToCents(Sum(RoundEach(Zero7))) == 0.0
  {
    assert WholeCents(0.0);
    RoundEachIdempotent(Zero7);
    SumZero(Zero7);
    CeilToCentsIdempotent(0.0);
  }

  // ---------------------------------------------------------------------
  // Sorting and filtering
  // ---------------------------------------------------------------------

  predicate SortedByKey(rows: seq<Row>) {
    forall i, j :: 0 <= i < j < |rows| ==> KeyLe(rows[i].key, rows[j].key)
  }

  /** x placed before the first row it does not sort after. */
  function Insert(x: Row, rows: seq<Row>): (r: seq<Row>)
    ensures |r| == |rows| + 1
    ensures multiset(r) == multiset(rows) + multiset{x}
  {
    if rows == [] || KeyLe(x.key, rows[0].key) then [x] + rows
    else
      assert rows == [rows[0]] + rows[1..];
      [rows[0]] + Insert(x, rows[1..])
  }

  /** Every row after the first of a sorted sequence sorts after the first. */
  lemma SortedHead(rows: seq<Row>, z: Row)
    requires SortedByKey(rows) && rows != []
    requires z in multiset(rows[1..])
    ensures KeyLe(rows[0].key, z.key)
  {
    var i :| 0 <= i < |rows[1..]| && rows[1..][i] == z;
    assert rows[i + 1] == z;
  }

  lemma {:induction false} InsertKeepsSorted(x: Row, rows: seq<Row>)
    requires SortedByKey(rows)
    ensures SortedByKey(Insert(x, rows))
    decreases |rows|
  {
    if rows == [] {
    } else if KeyLe(x.key, rows[0].key) {
      forall j | 0 <= j < |rows| ensures KeyLe(x.key, rows[j].key) {
        if j > 0 {
          KeyLeTransitive(x.key, rows[0].key, rows[j].key);
        }
      }
    } else {
      KeyLeTotal(x.key, rows[0].key);
      var t := Insert(x, rows[1..]);
      InsertKeepsSorted(x, rows[1..]);
      forall j | 0 <= j < |t| ensures KeyLe(rows[0].key, t[j].key) {
        assert t[j] in multiset(t);
        if t[j] != x {
          assert t[j] in multiset(rows[1..]);
          SortedHead(rows, t[j]);
        }
      }
    }
  }

  /**
   * `sort_values` on MATERIAL_ID, PLANT_ID, STORAGE_LOCATION, BATCH_NUMBER
   * (line 144): the same rows, in ascending key order.
   */
  function SortByKey(rows: seq<Row>): (r: seq<Row>)
    ensures |r| == |rows|
    ensures SortedByKey(r)
    ensures multiset(r) == multiset(rows)
  {
    if rows == [] then []
    else
      assert rows == [rows[0]] + rows[1..];
      var t := SortByKey(rows[1..]);
      InsertKeepsSorted(rows[0], t);
      Insert(rows[0], t)
  }

  /** The rows with key k, in their order. */
  function WithKey(rows: seq<Row>, k: Key): seq<Row> {
    if rows == [] then []
    else (if rows[0].key == k then [rows[0]] else []) + WithKey(rows[1..], k)
  }

  /** Insertion puts x in front of every row with its key. */
  lemma {:induction false} InsertStable(x: Row, rows: seq<Row>, k: Key)
    ensures WithKey(Insert(x, rows), k) == (if x.key == k then [x] else []) + WithKey(rows, k)
    decreases |rows|
  {
    if rows == [] || KeyLe(x.key, rows[0].key) {
      assert ([x] + rows)[1..] == rows;
    } else {
      KeyLeReflexive(x.key);
      var t := Insert(x, rows[1..]);
      InsertStable(x, rows[1..], k);
      assert ([rows[0]] + t)[1..] == t;
    }
  }

  /**
   * `sort_values` on several columns is a stable sort (line 144): rows with
   * equal keys keep the order they have in the table.
   */
  lemma {:induction false} SortByKeyStable(rows: seq<Row>, k: Key)
    ensures WithKey(SortByKey(rows), k) == WithKey(rows, k)
  {
    if rows != [] {
      SortByKeyStable(rows[1..], k);
      InsertStable(rows[0], SortByKey(rows[1..]), k);
    }
  }

  /** Two rows with the same key stay in table order. */
  lemma EqualKeysKeepOrder(a: Row, b: Row)
    requires a.key == b.key
    ensures SortByKey([a, b]) == [a, b]
  {
    assert [a, b][1..] == [b];
    assert [b][1..] == [];
    KeyLeReflexive(a.key);
  }

  /**
   * The filter of line 157: exactly the rows whose LV_DIFF_total is not 0,
   * each as often as in the input.
   */
  function Keep(rows: seq<Row>): (r: seq<Row>)
    ensures |r| <= |rows|
    ensures forall x :: multiset(r)[x] == if x.diffTotal != 0.0 then multiset(rows)[x] else 0
  {
    if rows == [] then []
    else
      assert rows == [rows[0]] + rows[1..];
      if rows[0].diffTotal != 0.0 then [rows[0]] + Keep(rows[1..]) else Keep(rows[1..])
  }

  /** One step of the filter, on a row put in front. */
  lemma KeepCons(x: Row, tail: seq<Row>)
    ensures Keep([x] + tail) == (if x.diffTotal != 0.0 then [x] else []) + Keep(tail)
  {
    assert ([x] + tail)[1..] == tail;
  }

  /** One step of WithKey, on a row put in front. */
  lemma WithKeyCons(x: Row, tail: seq<Row>, k: Key)
    ensures WithKey([x] + tail, k) == (if x.key == k then [x] else []) + WithKey(tail, k)
  {
    assert ([x] + tail)[1..] == tail;
  }

  /**
   * The boolean mask of line 157 keeps the rows in their order: the kept
   * rows with any one key are those rows of the input, filtered, in order.
   */
  lemma {:induction false} KeepStable(rows: seq<Row>, k: Key)
    ensures WithKey(Keep(rows), k) == Keep(WithKey(rows, k))
    decreases |rows|
  {
    if rows != [] {
      var x, tail := rows[0], rows[1..];
      assert rows == [x] + tail;
      KeepStable(tail, k);
      KeepCons(x, tail);
      WithKeyCons(x, tail, k);
      if x.diffTotal != 0.0 {
        WithKeyCons(x, Keep(tail), k);
        if x.key == k {
          KeepCons(x, WithKey(tail, k));
        } else {
          assert WithKey(rows, k) == WithKey(tail, k);
        }
      } else {
        assert Keep(rows) == Keep(tail);
        if x.key == k {
          KeepCons(x, WithKey(tail, k));
          assert WithKey(rows, k) == [x] + WithKey(tail, k);
        } else {
          assert WithKey(rows, k) == WithKey(tail, k);
        }
      }
    }
  }

  /** Sorting and then filtering keeps the rows with any one key in input order. */
  lemma SortedAndKeptStable(rows: seq<Row>, k: Key)
    ensures WithKey(Keep(SortByKey(rows)), k) == Keep(WithKey(rows, k))
  {
    KeepStable(SortByKey(rows), k);
    SortByKeyStable(rows, k);
  }

  /** Filtering keeps the rows in their order. */
  lemma {:induction false} KeepKeepsSorted(rows: seq<Row>)
    requires SortedByKey(rows)
    ensures SortedByKey(Keep(rows))
  {
    if rows != [] {
      var t := Keep(rows[1..]);
      assert SortedByKey(rows[1..]);
      KeepKeepsSorted(rows[1..]);
      if rows[0].diffTotal != 0.0 {
        forall j | 0 <= j < |t| ensures KeyLe(rows[0].key, t[j].key) {
          assert t[j] in multiset(t);
          SortedHead(rows, t[j]);
        }
      }
    }
  }

  // ---------------------------------------------------------------------
  // The report
  // ---------------------------------------------------------------------

  /**
   * One row of the report: the identity columns, STOCK_QTY, STOCK_VALUE,
   * the quantity of each day range and, when VAL was given, its value.
   */
  datatype ReportRow = ReportRow(
    materialId: string, materialDescription: string, plantId: string, plantName: string,
    baseUnitOfMeasure: string, unit: string, storageLocation: string, batchNumber: string,
    stockQty: real, stockValue: real, quantity: Vec7, value: Option<Vec7>)

  datatype Report = Report(columns: seq<string>, rows: seq<ReportRow>)

  /** Lines 146-156: the selected columns of a finished row. */
  function Project(hasVal: bool, row: Row): (r: ReportRow)
    // the report row keeps the row's sort key ...
    ensures ReportKey(r) == row.key
    // ... and reports LV_DIFF_total as STOCK_QTY, LV_DIFF_VALUE_total as STOCK_VALUE
    ensures r.stockQty == row.diffTotal && r.stockValue == row.valueTotal && r.quantity == row.lvDiff
    // the band values are there exactly when VAL is
    ensures r.value.Some? <==> hasVal
    ensures hasVal ==> r.value.value == row.lvValue
  {
    ReportRow(row.key.materialId, row.materialDescription, row.key.plantId, row.plantName,
              row.baseUnitOfMeasure, row.unit, row.key.storageLocation, row.key.batchNumber,
              row.diffTotal, row.valueTotal, row.lvDiff, if hasVal then Some(row.lvValue) else None)
  }

  function ReportKey(r: ReportRow): Key {
    Key(r.materialId, r.plantId, r.storageLocation, r.batchNumber)
  }

  /** The columns selected at lines 146-152, in that order. */
  const RequiredColumns: seq<string> := [
    "MATERIAL_ID", "MATERIAL_DESCRIPTION", "PLANT_ID", "PLANT_NAME",
    "BASE_UNIT_OF_MEASURE", "UNIT", "STORAGE_LOCATION", "BATCH_NUMBER",
    "LV_DIFF_total", "LV_DIFF_VALUE_total",
    "LV_DIFF1", "LV_DIFF1_VALUE", "LV_DIFF2", "LV_DIFF2_VALUE",
    "LV_DIFF3", "LV_DIFF3_VALUE", "LV_DIFF4", "LV_DIFF4_VALUE",
    "LV_DIFF5", "LV_DIFF5_VALUE", "LV_DIFF6", "LV_DIFF6_VALUE",
    "LV_DIFF7", "LV_DIFF7_VALUE"]

  /** The per-band value columns, created only when VAL exists (line 109). */
  const ValueColumns: set<string> := {
    "LV_DIFF1_VALUE", "LV_DIFF2_VALUE", "LV_DIFF3_VALUE", "LV_DIFF4_VALUE",
    "LV_DIFF5_VALUE", "LV_DIFF6_VALUE", "LV_DIFF7_VALUE"}

  /** The renaming of lines 159-178. */
  const Renamed: map<string, string> := map[
    "LV_DIFF1" := "DAYS_0_TO_30_QUANTITY", "LV_DIFF1_VALUE" := "DAYS_0_TO_30",
    "LV_DIFF2" := "DAYS_31_TO_60_QUANTITY", "LV_DIFF2_VALUE" := "DAYS_31_TO_60",
    "LV_DIFF3" := "DAYS_61_TO_90_QUANTITY", "LV_DIFF3_VALUE" := "DAYS_61_TO_90",
    "LV_DIFF4" := "DAYS_91_TO_120_QUANTITY", "LV_DIFF4_VALUE" := "DAYS_91_TO_120",
    "LV_DIFF5" := "DAYS_121_TO_180_QUANTITY", "LV_DIFF5_VALUE" := "DAYS_121_TO_180",
    "LV_DIFF6" := "DAYS_181_TO_365_QUANTITY", "LV_DIFF6_VALUE" := "DAYS_181_TO_365",
    "LV_DIFF7" := "OVER_1_YEAR_QUANTITY", "LV_DIFF7_VALUE" := "OVER_1_YEAR_VALUE",
    "LV_DIFF_total" := "STOCK_QTY", "LV_DIFF_VALUE_total" := "STOCK_VALUE"]

  function Rename(c: string): string {
    if c in Renamed then Renamed[c] else c
  }

  /** Every mapped column gets a new name; the others keep theirs. */
  lemma RenameChangesMapped(c: string)
    ensures Rename(c) != c <==> c in Renamed
  {
  }

  /** `str.upper` on ASCII letters; the column names are all ASCII. */
  function Upper(s: string): (r: string)
    ensures |r| == |s|
    ensures forall i :: 0 <= i < |s| ==> r[i] == if 'a' <= s[i] <= 'z' then (s[i] as int - 32) as char else s[i]
  {
    seq(|s|, i requires 0 <= i < |s| => if 'a' <= s[i] <= 'z' then (s[i] as int - 32) as char else s[i])
  }

  /** No lower-case ASCII letter is left, and upper-casing again changes nothing. */
  lemma UpperIsUpper(s: string)
    ensures forall i :: 0 <= i < |Upper(s)| ==> !('a' <= Upper(s)[i] <= 'z')
    ensures Upper(Upper(s)) == Upper(s)
  {
    UpperKeepsUpper(Upper(s));
  }

  /** A name without lower-case ASCII letters is its own upper case. */
  lemma UpperKeepsUpper(s: string)
    requires forall i :: 0 <= i < |s| ==> !('a' <= s[i] <= 'z')
    ensures Upper(s) == s
  {
  }

  /** The required columns the table has, renamed and upper-cased (lines 155, 178-179). */
  function Columns(hasVal: bool, cols: seq<string>): seq<string> {
    if cols == [] then []
    else if hasVal || cols[0] !in ValueColumns then [Upper(Rename(cols[0]))] + Columns(hasVal, cols[1..])
    else Columns(hasVal, cols[1..])
  }

  function ReportColumns(hasVal: bool): seq<string> {
    Columns(hasVal, RequiredColumns)
  }

  /** The finished rows of the table, sorted, with those without movement dropped. */
  function Selected(hasVal: bool, processed: seq<Row>): seq<Row> {
    Keep(SortByKey(seq(|processed|, i requires 0 <= i < |processed| => Finish(hasVal, processed[i]))))
  }

  /** Lines 106-179 on the processed rows: the report they give. */
  function Assemble(hasVal: bool, processed: seq<Row>): Report {
    var selected := Selected(hasVal, processed);
    Report(ReportColumns(hasVal), seq(|selected|, i requires 0 <= i < |selected| => Project(hasVal, selected[i])))
  }

  /** The model end to end, from the input table to the report. */
  function AgeingReport(schema: Schema, table: seq<Row>): (r: Result<Report>)
    ensures r.Err? <==> table != [] && MissingColumn(schema).Some?
    ensures r.Err? ==> r.error == KeyError(MissingColumn(schema).value)
    // the report has the report columns and at most one row per table row
    ensures r.Ok? ==> r.value.columns == ReportColumns(schema.hasVal) && |r.value.rows| <= |table|
  {
    match ProcessRows(schema, table)
    case Err(e) => Err(e)
    case Ok(processed) => Ok(Assemble(schema.hasVal, processed))
  }

  /**
   * The model function of lines 4-184 with the table passed in: the rows
   * are processed in place, then valued, totalled, rounded, sorted,
   * filtered and projected.
   */
  method Model(schema: Schema, table: seq<Row>) returns (result: Result<Report>)
    ensures result == AgeingReport(schema, table)
  {
    var rows := new Row[|table|](i requires 0 <= i < |table| => table[i]);
    assert rows[..] == table;
    var err := ProcessDataframe(schema, rows);
    if err.Some? {
      return Err(err.value);
    }
    result := Ok(Assemble(schema.hasVal, rows[..]));
  }

  // ---------------------------------------------------------------------
  // Properties of the report
  // ---------------------------------------------------------------------

  /**
   * The report holds exactly the finished rows whose STOCK_QTY is not 0,
   * each as often as in the table, in ascending key order.
   */
  lemma SelectedRows(hasVal: bool, processed: seq<Row>)
    ensures var finished := seq(|processed|, i requires 0 <= i < |processed| => Finish(hasVal, processed[i]));
      multiset(Selected(hasVal, processed)) == multiset(Keep(finished))
    ensures SortedByKey(Selected(hasVal, processed))
    ensures forall x :: x in Selected(hasVal, processed) ==> x.diffTotal != 0.0
  {
    var finished := seq(|processed|, i requires 0 <= i < |processed| => Finish(hasVal, processed[i]));
    SortedAndKept(finished);
  }

  /** Sorting, then keeping the moving rows, keeps every moving row once per occurrence, in order. */
  lemma SortedAndKept(rows: seq<Row>)
    ensures multiset(Keep(SortByKey(rows))) == multiset(Keep(rows))
    ensures SortedByKey(Keep(SortByKey(rows)))
    ensures forall x :: x in Keep(SortByKey(rows)) ==> x.diffTotal != 0.0
  {
    var sorted := SortByKey(rows);
    KeepKeepsSorted(sorted);
    forall x ensures multiset(Keep(sorted))[x] == multiset(Keep(rows))[x] {
    }
    forall x | x in Keep(sorted) ensures x.diffTotal != 0.0 {
      assert multiset(Keep(sorted))[x] > 0;
    }
  }

  /** Finished rows with one key reach the report in their table order. */
  lemma SelectedStable(hasVal: bool, processed: seq<Row>, k: Key)
    ensures var finished := seq(|processed|, i requires 0 <= i < |processed| => Finish(hasVal, processed[i]));
      WithKey(Selected(hasVal, processed), k) == Keep(WithKey(finished, k))
  {
    var finished := seq(|processed|, i requires 0 <= i < |processed| => Finish(hasVal, processed[i]));
    SortedAndKeptStable(finished, k);
  }

  /** Report rows come in ascending key order, and none has STOCK_QTY 0. */
  lemma ReportSortedAndMoving(schema: Schema, table: seq<Row>)
    requires AgeingReport(schema, table).Ok?
    ensures var rows := AgeingReport(schema, table).value.rows;
      (forall i, j :: 0 <= i < j < |rows| ==> KeyLe(ReportKey(rows[i]), ReportKey(rows[j]))) &&
      (forall i :: 0 <= i < |rows| ==> rows[i].stockQty != 0.0)
  {
    AssembledRows(schema.hasVal, ProcessRows(schema, table).value);
  }

  lemma AssembledRows(hasVal: bool, processed: seq<Row>)
    ensures var rows := Assemble(hasVal, processed).rows;
      (forall i, j :: 0 <= i < j < |rows| ==> KeyLe(ReportKey(rows[i]), ReportKey(rows[j]))) &&
      (forall i :: 0 <= i < |rows| ==> rows[i].stockQty != 0.0)
  {
    var selected := Selected(hasVal, processed);
    assert SortedByKey(selected) && forall x :: x in selected ==> x.diffTotal != 0.0 by {
      SelectedRows(hasVal, processed);
    }
    ProjectedRows(hasVal, selected);
  }

  /** Projection keeps the order of the rows and their STOCK_QTY. */
  lemma ProjectedRows(hasVal: bool, selected: seq<Row>)
    requires SortedByKey(selected)
    requires forall x :: x in selected ==> x.diffTotal != 0.0
    ensures var rows := seq(|selected|, i requires 0 <= i < |selected| => Project(hasVal, selected[i]));
      (forall i, j :: 0 <= i < j < |rows| ==> KeyLe(ReportKey(rows[i]), ReportKey(rows[j]))) &&
      (forall i :: 0 <= i < |rows| ==> rows[i].stockQty != 0.0)
  {
    assert forall i :: 0 <= i < |selected| ==> selected[i] in selected;
  }

  /** A table that has rows but lacks a strict column fails with that column's KeyError. */
  lemma MissingColumnFails(schema: Schema, table: seq<Row>)
    requires table != [] && MissingColumn(schema).Some?
    ensures AgeingReport(schema, table) == Err(KeyError(MissingColumn(schema).value))
  {
  }

  /** An empty table never fails, whatever columns it lacks, and gives an empty report. */
  lemma EmptyTableGivesEmptyReport(schema: Schema)
    ensures AgeingReport(schema, []) == Ok(Report(ReportColumns(schema.hasVal), []))
  {
    assert SortByKey([]) == [];
    NothingSelected(schema.hasVal, []);
  }

  /** No selected rows, no report rows. */
  lemma NothingSelected(hasVal: bool, processed: seq<Row>)
    requires Selected(hasVal, processed) == []
    ensures Assemble(hasVal, processed) == Report(ReportColumns(hasVal), [])
  {
  }

  /** A single row whose STOCK_QTY is 0 is dropped. */
  lemma SelectedWithoutMovement(hasVal: bool, row: Row)
    requires Finish(hasVal, row).diffTotal == 0.0
    ensures Selected(hasVal, [row]) == []
  {
    var finished := seq(1, i requires 0 <= i < 1 => Finish(hasVal, [row][i]));
    assert finished == [Finish(hasVal, row)];
    assert SortByKey(finished) == [Finish(hasVal, row)] by {
      assert finished[1..] == [];
    }
  }

  /** A table of one balanced row yields a report with no rows. */
  lemma BalancedRowIsDropped(schema: Schema, row: Row)
    requires MissingColumn(schema).None?
    requires Read(schema.qtyBands, row.qty) == Read(schema.nQtyBands, row.nQty)
    requires NonNegative(Read(schema.nQtyBands, row.nQty))
    ensures AgeingReport(schema, [row]) == Ok(Report(ReportColumns(schema.hasVal), []))
  {
    BalancedRowUnselected(schema, row);
    ReportWithoutRows(schema, [row], [Allocated(schema, row)]);
  }

  /** A balanced row is processed without error and then left out of the report. */
  lemma BalancedRowUnselected(schema: Schema, row: Row)
    requires MissingColumn(schema).None?
    requires Read(schema.qtyBands, row.qty) == Read(schema.nQtyBands, row.nQty)
    requires NonNegative(Read(schema.nQtyBands, row.nQty))
    ensures ProcessRows(schema, [row]) == Ok([Allocated(schema, row)])
    ensures Selected(schema.hasVal, [Allocated(schema, row)]) == []
  {
    var processed := Allocated(schema, row);
    AllRowsAllocated(schema, [row], [processed]);
    BalancedRowTotalsZero(schema, row);
    SelectedWithoutMovement(schema.hasVal, processed);
  }

  /** When no processed row is selected, the report has its columns and no row. */
  lemma ReportWithoutRows(schema: Schema, table: seq<Row>, processed: seq<Row>)
    requires ProcessRows(schema, table) == Ok(processed)
    requires Selected(schema.hasVal, processed) == []
    ensures AgeingReport(schema, table) == Ok(Report(ReportColumns(schema.hasVal), []))
  {
    NothingSelected(schema.hasVal, processed);
  }

  /** With VAL, every required column is in the report, renamed and upper-cased, in order. */
  lemma {:induction false} ColumnsWithValue(cols: seq<string>)
    ensures Columns(true, cols) == seq(|cols|, i requires 0 <= i < |cols| => Upper(Rename(cols[i])))
  {
    if cols != [] {
      var tail := cols[1..];
      ColumnsWithValue(tail);
      var whole := seq(|cols|, i requires 0 <= i < |cols| => Upper(Rename(cols[i])));
      var rest := seq(|tail|, i requires 0 <= i < |tail| => Upper(Rename(tail[i])));
      assert whole == [Upper(Rename(cols[0]))] + rest by {
        forall i | 1 <= i < |cols| ensures whole[i] == rest[i - 1] {
          assert tail[i - 1] == cols[i];
        }
      }
    }
  }

  /** Dropping the value columns leaves at most as many columns as were required. */
  lemma {:induction false} ColumnsLength(hasVal: bool, cols: seq<string>)
    ensures |Columns(hasVal, cols)| <= |cols|
  {
    if cols != [] {
      ColumnsLength(hasVal, cols[1..]);
    }
  }

  /** The required columns other than the per-band value columns, in order. */
  function WithoutValueColumns(cols: seq<string>): seq<string> {
    if cols == [] then []
    else (if cols[0] in ValueColumns then [] else [cols[0]]) + WithoutValueColumns(cols[1..])
  }

  /** Without VAL, the report columns are those of a table with VAL restricted to the non-value columns. */
  lemma {:induction false} ColumnsDropValues(cols: seq<string>)
    ensures Columns(false, cols) == Columns(true, WithoutValueColumns(cols))
  {
    if cols != [] {
      var tail := cols[1..];
      ColumnsDropValues(tail);
      if cols[0] in ValueColumns {
        assert WithoutValueColumns(cols) == WithoutValueColumns(tail);
      } else {
        var kept := [cols[0]] + WithoutValueColumns(tail);
        assert WithoutValueColumns(cols) == kept;
        assert kept[1..] == WithoutValueColumns(tail);
      }
    }
  }

  /**
   * Without VAL, the report columns are the non-value required columns, in
   * order, renamed and upper-cased.
   */
  lemma ColumnsWithoutValueInOrder(cols: seq<string>)
    ensures var kept := WithoutValueColumns(cols);
      Columns(false, cols) == seq(|kept|, i requires 0 <= i < |kept| => Upper(Rename(kept[i])))
  {
    ColumnsDropValues(cols);
    ColumnsWithValue(WithoutValueColumns(cols));
  }

  /**
   * Without VAL, a name is in the report exactly when it is the report name
   * of a required column other than the per-band value columns.
   */
  lemma {:induction false} ColumnsWithoutValue(cols: seq<string>, name: string)
    ensures name in Columns(false, cols)
        <==> exists i :: 0 <= i < |cols| && cols[i] !in ValueColumns && name == Upper(Rename(cols[i]))
  {
    if cols != [] {
      ColumnsWithoutValue(cols[1..], name);
      if name in Columns(false, cols[1..]) {
        var i :| 0 <= i < |cols[1..]| && cols[1..][i] !in ValueColumns && name == Upper(Rename(cols[1..][i]));
        assert cols[i + 1] == cols[1..][i];
      }
      if exists i :: 0 <= i < |cols| && cols[i] !in ValueColumns && name == Upper(Rename(cols[i])) {
        var i :| 0 <= i < |cols| && cols[i] !in ValueColumns && name == Upper(Rename(cols[i]));
        if i > 0 {
          assert cols[1..][i - 1] == cols[i];
        }
      }
    }
  }

  /** Band 7 is reported as OVER_1_YEAR, its value column only with VAL. */
  lemma OldestBandColumns()
    ensures Columns(true, ["LV_DIFF7", "LV_DIFF7_VALUE"]) == ["OVER_1_YEAR_QUANTITY", "OVER_1_YEAR_VALUE"]
    ensures Columns(false, ["LV_DIFF7", "LV_DIFF7_VALUE"]) == ["OVER_1_YEAR_QUANTITY"]
  {
    assert Rename("LV_DIFF7") == "OVER_1_YEAR_QUANTITY" && Rename("LV_DIFF7_VALUE") == "OVER_1_YEAR_VALUE";
    UpperKeepsUpper("OVER_1_YEAR_QUANTITY");
    UpperKeepsUpper("OVER_1_YEAR_VALUE");
    assert "LV_DIFF7" !in ValueColumns && "LV_DIFF7_VALUE" in ValueColumns;
    ColumnsWithValue(["LV_DIFF7", "LV_DIFF7_VALUE"]);
    assert ["LV_DIFF7", "LV_DIFF7_VALUE"][1..] == ["LV_DIFF7_VALUE"];
    assert ["LV_DIFF7_VALUE"][1..] == [];
  }
}
