/**
 * The two rounding rules of the inventory-ageing model, over exact values:
 *  - `round(x, 2)`, applied when the per-band movements are written back
 *    (Inventory_ageing/models/Inventory_ageing.py:102): nearest hundredth,
 *    ties to an even number of hundredths;
 *  - `np.ceil(x * 100) / 100`, applied to every numeric column afterwards
 *    (Inventory_ageing/models/Inventory_ageing.py:140-141): the least whole
 *    number of hundredths not below x, for negative values too.
 */
module Cents {

  function Abs(x: real): real { if x < 0.0 then -x else x }

  /** x is a whole number of hundredths (a value with at most two decimals). */
  predicate WholeCents(x: real) {
    (x * 100.0).Floor as real == x * 100.0
  }

  /** The least integer not below y. */
  function Ceil(y: real): (c: int)
    ensures y <= c as real < y + 1.0
  {
    -((-y).Floor)
  }

  /** `np.ceil(x * 100) / 100` */
  function CeilToCents(x: real): (r: real)
    ensures WholeCents(r)
    ensures x <= r < x + 0.01
  {
    var c := Ceil(x * 100.0);
    assert (c as real / 100.0) * 100.0 == c as real;
    c as real / 100.0
  }

  /** The ceiling rule gives the least whole-cent value not below x. */
  lemma CeilToCentsIsLeast(x: real, w: real)
    requires WholeCents(w) && x <= w
    ensures CeilToCents(x) <= w
  {
    var m := (w * 100.0).Floor;
    var c := Ceil(x * 100.0);
    assert x * 100.0 <= m as real;
    assert c - 1 < m + 1;
    assert c as real / 100.0 <= m as real / 100.0;
  }

  /** Whole-cent values are left unchanged by the ceiling rule. */
  lemma CeilToCentsIdempotent(x: real)
    requires WholeCents(x)
    ensures CeilToCents(x) == x
  {
    CeilToCentsIsLeast(x, x);
  }

  /** Rounding goes toward +infinity, negative values included. */
  lemma CeilToCentsExamples()
    ensures CeilToCents(-1.234) == -1.23
    ensures CeilToCents(1.236) == 1.24
    ensures CeilToCents(-0.001) == 0.0
  {
    assert Ceil(-123.4) == -123 by { assert (123.4).Floor == 123; }
    assert Ceil(123.6) == 124 by { assert (-123.6).Floor == -124; }
    assert Ceil(-0.1) == 0 by { assert (0.1).Floor == 0; }
  }

  /** `round(x, 2)`: nearest hundredth, ties to an even number of hundredths. */
  function RoundHalfEvenToCents(x: real): (r: real)
    ensures WholeCents(r)
    ensures Abs(r - x) <= 0.005
    ensures Abs(r - x) == 0.005 ==> (r * 100.0).Floor % 2 == 0
  {
    var y := x * 100.0;
    var f := y.Floor;
    var frac := y - f as real;
    var n := if frac < 0.5 then f
             else if frac > 0.5 then f + 1
             else if f % 2 == 0 then f else f + 1;
    assert (n as real / 100.0) * 100.0 == n as real;
    n as real / 100.0
  }

  /** No whole-cent value is closer to x than round(x, 2). */
  lemma RoundHalfEvenIsNearest(x: real, w: real)
    requires WholeCents(w)
    ensures Abs(RoundHalfEvenToCents(x) - x) <= Abs(w - x)
  {
    var m := (w * 100.0).Floor;
    var f := (x * 100.0).Floor;
    assert m <= f || m >= f + 1;
  }

  /** Whole-cent values are left unchanged by round(x, 2). */
  lemma RoundHalfEvenIdempotent(x: real)
    requires WholeCents(x)
    ensures RoundHalfEvenToCents(x) == x
  {
    var f := (x * 100.0).Floor;
    assert x * 100.0 - f as real == 0.0;
  }

  lemma WholeCentsSub(a: real, b: real)
    requires WholeCents(a) && WholeCents(b)
    ensures WholeCents(a - b)
  {
    var m, n := (a * 100.0).Floor, (b * 100.0).Floor;
    assert (a - b) * 100.0 == (m - n) as real;
  }

  lemma WholeCentsAdd(a: real, b: real)
    requires WholeCents(a) && WholeCents(b)
    ensures WholeCents(a + b)
  {
    var m, n := (a * 100.0).Floor, (b * 100.0).Floor;
    assert (a + b) * 100.0 == (m + n) as real;
  }
}
