/**
 * The seven-band ageing waterfall of one inventory row
 * (`process_dataframe`, Inventory_ageing/models/Inventory_ageing.py:14-104).
 *
 * A row carries seven current quantities QTY_1..7 and seven restated
 * quantities N_QTY_1..7; band 7 is the oldest (over a year), band 1 the
 * newest (0-30 days). Slot i of a vector holds band i + 1, so slot 6 is
 * band 7. Band 7 opens with the shortfall QTY_7 - N_QTY_7. Each younger
 * band k, from 6 down to 1, takes N_QTY_k as a pool and walks the diffs of
 * all older bands, oldest first, offsetting each against the pool; its own
 * diff is then QTY_k minus what is left of the pool, and that residual
 * replaces N_QTY_k.
 */
module Allocation {
  import opened Cents

  /** Seven per-band values; slot i is band i + 1. */
  type Vec7 = s: seq<real> | |s| == 7 witness [0.0, 0.0, 0.0, 0.0, 0.0, 0.0, 0.0]

  const Zero7: Vec7 := [0.0, 0.0, 0.0, 0.0, 0.0, 0.0, 0.0]

  function Sum(s: seq<real>): real {
    if s == [] then 0.0 else s[0] + Sum(s[1..])
  }

  function Clip(x: real): real { if x < 0.0 then 0.0 else x }

  function Min(x: real, y: real): real { if x <= y then x else y }

  /**
   * Which value an offset step is guarded on: band 6 offsets only when its
   * pool is non-zero (line 24), bands 5..1 only when the older diff is
   * non-zero (lines 38, 51, 64, 77, 90).
   */
  datatype Guard = PoolNonZero | DiffNonZero

  /**
   * One offset step of a pool against one older diff; the result is
   * (pool, diff) afterwards (lines 24-30 and 38-44). Negative diffs are not
   * clamped: a negative diff passes `pool >= diff` and so refills the pool.
   */
  function Offset(guard: Guard, pool: real, diff: real): (r: (real, real))
    // either the diff is settled or the pool is exhausted
    ensures r.1 == 0.0 || r.0 == 0.0
    // the open amount minus the pool is conserved
    ensures r.1 - r.0 == diff - pool
    ensures pool >= 0.0 ==> r.0 >= 0.0
    // with non-negative values the pool pays off as much of the diff as it can
    ensures pool >= 0.0 && diff >= 0.0 ==> r == (Clip(pool - diff), diff - Min(diff, pool))
    // a negative diff is cleared and its magnitude added to the pool
    ensures pool >= 0.0 && diff < 0.0 && (guard == DiffNonZero || pool != 0.0) ==> r == (pool - diff, 0.0)
    // band 6 leaves the diff alone when its pool is zero
    ensures guard == PoolNonZero && pool == 0.0 ==> r == (pool, diff)
  {
    var active := if guard == PoolNonZero then pool != 0.0 else diff != 0.0;
    if !active then (pool, diff)
    else if pool >= diff then (pool - diff, 0.0)
    else (0.0, diff - pool)
  }

  /**
   * The two guards act alike except when the pool is zero and the diff
   * negative, or the diff zero and the pool negative.
   */
  lemma GuardsAgree(pool: real, diff: real)
    ensures Offset(PoolNonZero, pool, diff) == Offset(DiffNonZero, pool, diff)
        <==> !(pool == 0.0 && diff < 0.0) && !(diff == 0.0 && pool < 0.0)
  {
  }

  /**
   * Walks the older diffs in slots hi-1 down to lo (oldest first) with one
   * pool; the result is the pool and the diffs afterwards. The step for
   * slot lo is the last one taken.
   */
  function WalkRange(guard: Guard, pool: real, lv: seq<real>, lo: nat, hi: nat): (r: (real, seq<real>))
    requires lo <= hi <= |lv|
    ensures |r.1| == |lv|
    ensures forall i :: 0 <= i < |lv| && !(lo <= i < hi) ==> r.1[i] == lv[i]
    ensures pool >= 0.0 ==> r.0 >= 0.0
    decreases hi - lo
  {
    if lo == hi then (pool, lv)
    else
      var w := WalkRange(guard, pool, lv, lo + 1, hi);
      var s := Offset(guard, w.0, w.1[lo]);
      (s.0, w.1[lo := s.1])
  }

  /** A walk moves amounts between the pool and the diffs: their difference is conserved. */
  lemma {:induction false} WalkConserves(guard: Guard, pool: real, lv: seq<real>, lo: nat, hi: nat)
    requires lo <= hi <= |lv|
    ensures Sum(WalkRange(guard, pool, lv, lo, hi).1[lo..hi]) - WalkRange(guard, pool, lv, lo, hi).0
         == Sum(lv[lo..hi]) - pool
    decreases hi - lo
  {
    if lo < hi {
      WalkConserves(guard, pool, lv, lo + 1, hi);
      var w := WalkRange(guard, pool, lv, lo + 1, hi);
      var s := Offset(guard, w.0, w.1[lo]);
      var out := w.1[lo := s.1];
      assert out[lo..hi][1..] == w.1[lo + 1..hi];
      assert lv[lo..hi][1..] == lv[lo + 1..hi];
    }
  }

  /**
   * Oldest first: with a non-negative pool and non-negative diffs, the diff
   * in slot i keeps only what the pool could not cover once every older
   * slot (i+1 .. hi-1) had been paid in full, and the pool ends at what
   * exceeds all of them.
   */
  lemma {:induction false} WalkOldestFirst(guard: Guard, pool: real, lv: seq<real>, lo: nat, hi: nat)
    requires lo <= hi <= |lv|
    requires pool >= 0.0
    requires forall i :: lo <= i < hi ==> lv[i] >= 0.0
    ensures WalkRange(guard, pool, lv, lo, hi).0 == Clip(pool - Sum(lv[lo..hi]))
    ensures forall i :: lo <= i < hi ==>
      WalkRange(guard, pool, lv, lo, hi).1[i] == lv[i] - Min(lv[i], Clip(pool - Sum(lv[i + 1..hi])))
    decreases hi - lo
  {
    if lo < hi {
      WalkOldestFirst(guard, pool, lv, lo + 1, hi);
      var w := WalkRange(guard, pool, lv, lo + 1, hi);
      var s := Offset(guard, w.0, lv[lo]);
      WalkUnfold(guard, pool, lv, lo, hi);
      assert lv[lo..hi][1..] == lv[lo + 1..hi];
      OldestFirstStep(pool, lv[lo], Sum(lv[lo + 1..hi]), w.0, s);
    }
  }

  /** The arithmetic of one oldest-first step: slot lo after its older slots. */
  lemma OldestFirstStep(pool: real, diff: real, older: real, left: real, s: (real, real))
    requires diff >= 0.0
    requires left == Clip(pool - older)
    requires s == (Clip(left - diff), diff - Min(diff, left))
    ensures s.0 == Clip(pool - (diff + older))
  {
  }

  /** A diff whose older slots already absorb the whole pool is left unchanged. */
  lemma PoolExhaustedLeavesDiff(guard: Guard, pool: real, lv: seq<real>, lo: nat, hi: nat, i: nat)
    requires lo <= i < hi <= |lv|
    requires pool >= 0.0
    requires forall j :: lo <= j < hi ==> lv[j] >= 0.0
    requires pool <= Sum(lv[i + 1..hi])
    ensures WalkRange(guard, pool, lv, lo, hi).1[i] == lv[i]
  {
    WalkOldestFirst(guard, pool, lv, lo, hi);
  }

  lemma SumCons(s: seq<real>)
    requires s != []
    ensures Sum(s) == s[0] + Sum(s[1..])
  {
  }

  /**
   * The working state of one row's cascade: `lv` holds the diffs computed so
   * far (`lv_diffs`; slots of bands not yet reached hold 0) and `n` the
   * N_QTY values, with residual pools written back for settled bands.
   */
  datatype Ledger = Ledger(lv: Vec7, n: Vec7)

  /** Band 6 (slot 5) is guarded on its pool, bands 5..1 on the older diff. */
  function GuardOf(k: nat): Guard {
    if k == 5 then PoolNonZero else DiffNonZero
  }

  /** Band 7 opens the cascade with QTY_7 - N_QTY_7 (line 20). */
  function Open(qty: Vec7, nQty: Vec7): (r: Ledger)
    // nothing is written back yet
    ensures r.n == nQty
    // band 7 is the only band with a diff, its own shortfall
    ensures r.lv[6] == qty[6] - nQty[6]
    ensures forall i :: 0 <= i < 6 ==> r.lv[i] == 0.0
  {
    Ledger(Zero7[6 := qty[6] - nQty[6]], nQty)
  }

  /**
   * Settles the band in slot k: its pool N_QTY walks the older diffs, the
   * residual pool is written back over N_QTY, and the band's own diff is its
   * QTY minus that residual.
   */
  function SettleBand(qty: Vec7, st: Ledger, k: nat): (r: Ledger)
    requires k < 6
    // younger bands are not touched
    ensures forall i :: 0 <= i < k ==> r.lv[i] == st.lv[i]
    // only this band's N_QTY is written
    ensures r.n == st.n[k := r.n[k]]
    ensures r.lv[k] == qty[k] - r.n[k]
  {
    var w := WalkRange(GuardOf(k), st.n[k], st.lv, k + 1, 7);
    Ledger(w.1[k := qty[k] - w.0], st.n[k := w.0])
  }

  /** The cascade after the bands in slots 6 down to k have been settled. */
  function SettleFrom(qty: Vec7, nQty: Vec7, k: nat): (r: Ledger)
    requires k <= 6
    // N_QTY of younger bands, and N_QTY_7, are not touched
    ensures forall i :: 0 <= i < k ==> r.n[i] == nQty[i]
    ensures r.n[6] == nQty[6]
    // younger bands have no diff yet
    ensures forall i :: 0 <= i < k ==> r.lv[i] == 0.0
    // the band just settled: its own diff is its QTY minus its residual pool
    ensures r.lv[k] == qty[k] - r.n[k]
    decreases 6 - k
  {
    if k == 6 then Open(qty, nQty)
    else
      var prev := SettleFrom(qty, nQty, k + 1);
      SettleBand(qty, prev, k)
  }

  /** Settling slot k (below 6) takes the state left by slot k + 1. */
  lemma SettleFromStep(qty: Vec7, nQty: Vec7, k: nat)
    requires k < 6
    ensures SettleFrom(qty, nQty, k) == SettleBand(qty, SettleFrom(qty, nQty, k + 1), k)
  {
  }

  /** Conservation over the settled bands. */
  lemma {:induction false} SettleConserves(qty: Vec7, nQty: Vec7, k: nat)
    requires k <= 6
    ensures Sum(SettleFrom(qty, nQty, k).lv[k..]) == Sum(qty[k..]) - Sum(nQty[k..])
    decreases 6 - k
  {
    var r := SettleFrom(qty, nQty, k);
    SumCons(qty[k..]);
    SumCons(nQty[k..]);
    assert qty[k..][1..] == qty[k + 1..] && nQty[k..][1..] == nQty[k + 1..];
    SumCons(r.lv[k..]);
    assert r.lv[k..][1..] == r.lv[k + 1..];
    if k == 6 {
      assert r.lv[7..] == [] && qty[7..] == [] && nQty[7..] == [];
    } else {
      SettleConserves(qty, nQty, k + 1);
      var prev := SettleFrom(qty, nQty, k + 1);
      SettleBandConserves(qty, prev, k);
    }
  }

  /** Settling one band adds its QTY minus its N_QTY to the open total. */
  lemma SettleBandConserves(qty: Vec7, st: Ledger, k: nat)
    requires k < 6
    ensures Sum(SettleBand(qty, st, k).lv[k + 1..]) + SettleBand(qty, st, k).lv[k]
         == Sum(st.lv[k + 1..]) + qty[k] - st.n[k]
  {
    var w := WalkRange(GuardOf(k), st.n[k], st.lv, k + 1, 7);
    WalkConserves(GuardOf(k), st.n[k], st.lv, k + 1, 7);
    var r := SettleBand(qty, st, k);
    assert r.lv[k + 1..] == w.1[k + 1..7];
    assert st.lv[k + 1..] == st.lv[k + 1..7];
  }

  /**
   * The whole cascade of one row: `lv` holds the final LV_DIFF1..7 before
   * rounding and `n` holds N_QTY_1..7 with the residual pools written back.
   */
  function Cascade(qty: Vec7, nQty: Vec7): (r: Ledger)
    // conservation: the diffs add up to the total of QTY minus N_QTY
    ensures Sum(r.lv) == Sum(qty) - Sum(nQty)
    // band 1, settled last, keeps its own diff QTY_1 - residual
    ensures r.lv[0] == qty[0] - r.n[0]
    ensures r.n[6] == nQty[6]
  {
    var r := SettleFrom(qty, nQty, 0);
    SettleConserves(qty, nQty, 0);
    assert r.lv[0..] == r.lv && qty[0..] == qty && nQty[0..] == nQty;
    r
  }

  /**
   * `process_dataframe` on one row (lines 15-102): `lv` plays the
   * `lv_diffs` dictionary, `n` the row's N_QTY cells, and `pool` the
   * `n_qty_k` variable of the band being settled. The diffs are returned
   * before the rounding of line 102.
   */
  method Allocate(qty: Vec7, nQty: Vec7) returns (lvDiff: Vec7, residual: Vec7)
    ensures Ledger(lvDiff, residual) == Cascade(qty, nQty)
  {
    var lv := new real[7](_ => 0.0);
    var n := new real[7];
    forall i | 0 <= i < 7 {
      n[i] := nQty[i];
    }
    assert n[..] == nQty;
    // band 7
    lv[6] := qty[6] - n[6];
    assert Ledger(lv[..], n[..]) == SettleFrom(qty, nQty, 6) by {
      assert lv[..] == Zero7[6 := qty[6] - nQty[6]];
    }
    SettleBandSix(qty, lv, n);
    SettleFromStep(qty, nQty, 5);
    // bands 5 down to 1: guarded on each older diff being non-zero
    var k := 5;
    while k > 0
      invariant 0 <= k <= 5
      invariant Ledger(lv[..], n[..]) == SettleFrom(qty, nQty, k)
    {
      k := k - 1;
      ghost var before := Ledger(lv[..], n[..]);
      SettleYounger(qty, lv, n, k);
      assert Ledger(lv[..], n[..]) == SettleBand(qty, before, k);
      SettleFromStep(qty, nQty, k);
    }
    lvDiff, residual := lv[..], n[..];
  }

  /**
   * Settles band 6 (lines 22-33): its pool walks diff7 only, and only when
   * the pool is non-zero; the residual is written back over N_QTY_6 in that
   * case alone, and diff6 is QTY_6 minus N_QTY_6 as it then stands.
   */
  method SettleBandSix(qty: Vec7, lv: array<real>, n: array<real>)
    requires lv.Length == 7 && n.Length == 7 && lv != n
    modifies lv, n
    ensures Ledger(lv[..], n[..]) == SettleBand(qty, Ledger(old(lv[..]), old(n[..])), 5)
  {
    ghost var start := Ledger(lv[..], n[..]);
    var pool := n[5];
    if pool != 0.0 {
      if pool >= lv[6] {
        pool := pool - lv[6];
        lv[6] := 0.0;
      } else {
        lv[6] := lv[6] - pool;
        pool := 0.0;
      }
      n[5] := pool;
    }
    lv[5] := qty[5] - n[5];
    ghost var step := Offset(PoolNonZero, start.n[5], start.lv[6]);
    assert WalkRange(PoolNonZero, start.n[5], start.lv, 6, 7) == (step.0, start.lv[6 := step.1]);
    assert lv[..] == start.lv[6 := step.1][5 := qty[5] - step.0];
    assert n[..] == start.n[5 := step.0];
  }

  /**
   * Settles band k + 1 for k < 5 (lines 35-46, 48-59, 61-72, 74-85, 87-98):
   * its pool walks the older diffs in slots 6 down to k + 1, each step
   * guarded on the diff being non-zero; the residual is written back over
   * N_QTY and the band's own diff is its QTY minus that residual.
   */
  method SettleYounger(qty: Vec7, lv: array<real>, n: array<real>, k: nat)
    requires lv.Length == 7 && n.Length == 7 && lv != n && k < 5
    modifies lv, n
    ensures Ledger(lv[..], n[..]) == SettleBand(qty, Ledger(old(lv[..]), old(n[..])), k)
  {
    var pool := n[k];
    var j := 6;
    while j > k
      invariant k <= j <= 6
      invariant n[..] == old(n[..])
      invariant (pool, lv[..]) == WalkRange(DiffNonZero, old(n[k]), old(lv[..]), j + 1, 7)
    {
      ghost var w := lv[..];
      ghost var step := Offset(DiffNonZero, pool, lv[j]);
      if lv[j] != 0.0 {
        if pool >= lv[j] {
          pool := pool - lv[j];
          lv[j] := 0.0;
        } else {
          lv[j] := lv[j] - pool;
          pool := 0.0;
        }
      }
      assert pool == step.0 && lv[j] == step.1;
      assert forall i :: 0 <= i < 7 ==> lv[..][i] == w[j := step.1][i];
      assert lv[..] == w[j := step.1];
      assert WalkRange(DiffNonZero, old(n[k]), old(lv[..]), j, 7) == (step.0, w[j := step.1]);
      j := j - 1;
    }
    ghost var walked := lv[..];
    n[k] := pool;
    lv[k] := qty[k] - n[k];
    assert GuardOf(k) == DiffNonZero;
    assert forall i :: 0 <= i < 7 ==> lv[..][i] == walked[k := qty[k] - pool][i];
    assert forall i :: 0 <= i < 7 ==> n[..][i] == old(n[..])[k := pool][i];
  }

  /** One more step of a walk: slot lo is offset after the older slots. */
  lemma WalkUnfold(guard: Guard, pool: real, lv: seq<real>, lo: nat, hi: nat)
    requires lo < hi <= |lv|
    ensures var w := WalkRange(guard, pool, lv, lo + 1, hi);
            var s := Offset(guard, w.0, w.1[lo]);
            WalkRange(guard, pool, lv, lo, hi) == (s.0, w.1[lo := s.1])
  {
  }

  /**
   * The worked example: QTY = [0,0,0,0,0,5,10], N_QTY = [0,0,0,0,2,6,4]
   * (bands 1..7). Band 6's pool of 6 clears diff7 = 6, so diff6 = 5; band
   * 5's pool of 2 then brings diff6 down to 3. The reported diffs are the
   * leftovers [0,0,0,0,0,3,0], total 3.
   */
  lemma WorkedExample()
    ensures Cascade([0.0, 0.0, 0.0, 0.0, 0.0, 5.0, 10.0], [0.0, 0.0, 0.0, 0.0, 2.0, 6.0, 4.0]).lv
         == [0.0, 0.0, 0.0, 0.0, 0.0, 3.0, 0.0]
  {
    var qty: Vec7 := [0.0, 0.0, 0.0, 0.0, 0.0, 5.0, 10.0];
    var nQty: Vec7 := [0.0, 0.0, 0.0, 0.0, 2.0, 6.0, 4.0];
    var s6 := SettleFrom(qty, nQty, 6);
    assert s6.lv == [0.0, 0.0, 0.0, 0.0, 0.0, 0.0, 6.0];
    SettleFromStep(qty, nQty, 5);
    var s5 := SettleFrom(qty, nQty, 5);
    WalkUnfold(PoolNonZero, 6.0, s6.lv, 6, 7);
    assert s5 == Ledger([0.0, 0.0, 0.0, 0.0, 0.0, 5.0, 0.0], [0.0, 0.0, 0.0, 0.0, 2.0, 0.0, 4.0]);
    SettleFromStep(qty, nQty, 4);
    var s4 := SettleFrom(qty, nQty, 4);
    WalkUnfold(DiffNonZero, 2.0, s5.lv, 6, 7);
    WalkUnfold(DiffNonZero, 2.0, s5.lv, 5, 7);
    assert s4.lv == [0.0, 0.0, 0.0, 0.0, 0.0, 3.0, 0.0];
    IdleBands(qty, nQty, 4);
  }

  /**
   * Bands whose QTY and N_QTY are both zero change nothing once the older
   * diffs are non-negative: their empty pool leaves every older diff alone.
   */
  lemma {:induction false} IdleBands(qty: Vec7, nQty: Vec7, k: nat)
    requires k <= 6
    requires forall i :: 0 <= i < k ==> qty[i] == 0.0 && nQty[i] == 0.0
    requires NonNegative(SettleFrom(qty, nQty, k).lv)
    ensures SettleFrom(qty, nQty, 0).lv == SettleFrom(qty, nQty, k).lv
    decreases k
  {
    if k > 0 {
      SettleFromStep(qty, nQty, k - 1);
      IdleBand(qty, SettleFrom(qty, nQty, k), k - 1);
      IdleBands(qty, nQty, k - 1);
    }
  }

  lemma IdleBand(qty: Vec7, st: Ledger, k: nat)
    requires k < 6 && qty[k] == 0.0 && st.n[k] == 0.0 && st.lv[k] == 0.0
    requires NonNegative(st.lv)
    ensures SettleBand(qty, st, k).lv == st.lv
  {
    EmptyPoolWalk(GuardOf(k), st.lv, k + 1, 7);
    assert st.lv[k := 0.0] == st.lv;
  }

  /** An empty pool walking non-negative diffs changes nothing. */
  lemma {:induction false} EmptyPoolWalk(guard: Guard, lv: seq<real>, lo: nat, hi: nat)
    requires lo <= hi <= |lv|
    requires forall i :: lo <= i < hi ==> lv[i] >= 0.0
    ensures WalkRange(guard, 0.0, lv, lo, hi) == (0.0, lv)
    decreases hi - lo
  {
    if lo < hi {
      EmptyPoolWalk(guard, lv, lo + 1, hi);
      assert lv[lo := lv[lo]] == lv;
    }
  }

  predicate NonNegative(s: seq<real>) {
    forall i :: 0 <= i < |s| ==> s[i] >= 0.0
  }

  /**
   * Pools are not only drawn down: band 6's pool of 1 leaves diff6 = -1,
   * and band 5's pool of 1 absorbs that negative diff and grows to 2.
   */
  lemma NegativeDiffRefillsPool()
    ensures Cascade([0.0, 0.0, 0.0, 0.0, 0.0, 0.0, 0.0], [0.0, 0.0, 0.0, 0.0, 1.0, 1.0, 0.0]).n[4] == 2.0
  {
    var qty: Vec7 := [0.0, 0.0, 0.0, 0.0, 0.0, 0.0, 0.0];
    var nQty: Vec7 := [0.0, 0.0, 0.0, 0.0, 1.0, 1.0, 0.0];
    var s6 := SettleFrom(qty, nQty, 6);
    SettleFromStep(qty, nQty, 5);
    WalkUnfold(PoolNonZero, 1.0, s6.lv, 6, 7);
    var s5 := SettleFrom(qty, nQty, 5);
    assert s5.lv == [0.0, 0.0, 0.0, 0.0, 0.0, -1.0, 0.0];
    SettleFromStep(qty, nQty, 4);
    WalkUnfold(DiffNonZero, 1.0, s5.lv, 6, 7);
    WalkUnfold(DiffNonZero, 1.0, s5.lv, 5, 7);
    assert SettleFrom(qty, nQty, 4).n[4] == 2.0;
    ResidualStays(qty, nQty, 4, 4);
  }

  /** A residual written back over N_QTY is not touched by younger bands. */
  lemma {:induction false} ResidualStays(qty: Vec7, nQty: Vec7, k: nat, b: nat)
    requires k <= b <= 6
    ensures SettleFrom(qty, nQty, 0).n[b] == SettleFrom(qty, nQty, k).n[b]
    decreases k
  {
    if k > 0 {
      SettleFromStep(qty, nQty, k - 1);
      ResidualStays(qty, nQty, k - 1, b);
    }
  }

  /**
   * A row whose restated quantities equal its current ones (all
   * non-negative) has no movement in any band, so its total is 0 and the
   * row is later dropped.
   */
  lemma BalancedRowHasNoMovement(qty: Vec7, nQty: Vec7)
    requires qty == nQty && NonNegative(nQty)
    ensures Cascade(qty, nQty).lv == Zero7
  {
    BalancedBands(qty, nQty, 0);
  }

  lemma {:induction false} BalancedBands(qty: Vec7, nQty: Vec7, k: nat)
    requires k <= 6
    requires qty == nQty && NonNegative(nQty)
    ensures SettleFrom(qty, nQty, k).lv == Zero7
    decreases 6 - k
  {
    if k < 6 {
      BalancedBands(qty, nQty, k + 1);
      SettleFromStep(qty, nQty, k);
      BalancedBand(qty, SettleFrom(qty, nQty, k + 1), k);
    }
  }

  lemma BalancedBand(qty: Vec7, st: Ledger, k: nat)
    requires k < 6
    requires st.lv == Zero7 && st.n[k] == qty[k] && st.n[k] >= 0.0
    ensures SettleBand(qty, st, k).lv == Zero7
  {
    WalkOverSettled(GuardOf(k), st.n[k], st.lv, k + 1, 7);
    assert Zero7[k := 0.0] == Zero7;
  }

  /** A non-negative pool walking diffs that are all settled changes nothing. */
  lemma {:induction false} WalkOverSettled(guard: Guard, pool: real, lv: seq<real>, lo: nat, hi: nat)
    requires lo <= hi <= |lv|
    requires pool >= 0.0
    requires forall i :: lo <= i < hi ==> lv[i] == 0.0
    ensures WalkRange(guard, pool, lv, lo, hi) == (pool, lv)
    decreases hi - lo
  {
    if lo < hi {
      WalkOverSettled(guard, pool, lv, lo + 1, hi);
      assert lv[lo := 0.0] == lv;
    }
  }

  lemma {:induction false} SumZero(s: seq<real>)
    requires forall i :: 0 <= i < |s| ==> s[i] == 0.0
    ensures Sum(s) == 0.0
  {
    if s != [] {
      SumZero(s[1..]);
    }
  }

  /** Every value of s is a whole number of hundredths. */
  predicate AllCents(s: seq<real>) {
    forall i :: 0 <= i < |s| ==> WholeCents(s[i])
  }

  /** Whole-cent inputs keep every pool and diff of a walk in whole cents. */
  lemma {:induction false} WalkKeepsCents(guard: Guard, pool: real, lv: seq<real>, lo: nat, hi: nat)
    requires lo <= hi <= |lv|
    requires WholeCents(pool) && AllCents(lv)
    ensures WholeCents(WalkRange(guard, pool, lv, lo, hi).0)
    ensures AllCents(WalkRange(guard, pool, lv, lo, hi).1)
    decreases hi - lo
  {
    if lo < hi {
      WalkKeepsCents(guard, pool, lv, lo + 1, hi);
      var w := WalkRange(guard, pool, lv, lo + 1, hi);
      assert WholeCents(w.1[lo]);
      WholeCentsSub(w.0, w.1[lo]);
      WholeCentsSub(w.1[lo], w.0);
      assert WholeCents(0.0);
    }
  }

  /**
   * Whole-cent QTY and N_QTY give whole-cent diffs and residuals, so the
   * rounding of line 102 leaves them unchanged.
   */
  lemma {:induction false} SettleKeepsCents(qty: Vec7, nQty: Vec7, k: nat)
    requires k <= 6
    requires AllCents(qty) && AllCents(nQty)
    ensures AllCents(SettleFrom(qty, nQty, k).lv) && AllCents(SettleFrom(qty, nQty, k).n)
    decreases 6 - k
  {
    if k == 6 {
      assert WholeCents(0.0);
      WholeCentsSub(qty[6], nQty[6]);
    } else {
      SettleKeepsCents(qty, nQty, k + 1);
      SettleFromStep(qty, nQty, k);
      SettleBandKeepsCents(qty, SettleFrom(qty, nQty, k + 1), k);
    }
  }

  lemma SettleBandKeepsCents(qty: Vec7, st: Ledger, k: nat)
    requires k < 6
    requires AllCents(qty) && AllCents(st.lv) && AllCents(st.n)
    ensures AllCents(SettleBand(qty, st, k).lv) && AllCents(SettleBand(qty, st, k).n)
  {
    var w := WalkRange(GuardOf(k), st.n[k], st.lv, k + 1, 7);
    assert WholeCents(w.0) && AllCents(w.1) by {
      WalkKeepsCents(GuardOf(k), st.n[k], st.lv, k + 1, 7);
    }
    assert AllCents(st.n[k := w.0]) by {
      CentsUpdate(st.n, k, w.0);
    }
    assert AllCents(w.1[k := qty[k] - w.0]) by {
      WholeCentsSub(qty[k], w.0);
      CentsUpdate(w.1, k, qty[k] - w.0);
    }
  }

  lemma CentsUpdate(s: seq<real>, i: nat, x: real)
    requires i < |s| && AllCents(s) && WholeCents(x)
    ensures AllCents(s[i := x])
  {
  }
}
