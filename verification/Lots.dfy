/** Lot-size rounding of order volumes (frontend/crypto/trading_primitives/Symbol.h). */
module Lots {
  import opened Common
  import opened RealProducts

  /** What a strategy spends on one order. */
  const POSITION_AMOUNT := 100.0

  /** The amount of an order is worth at least half a lot. */
  predicate BuysLot(step: real, price: real)
    requires price > 0.0
  {
    2.0 * POSITION_AMOUNT / price >= step
  }

  lemma AmountIsPositive(price: real)
    requires price > 0.0
    ensures POSITION_AMOUNT / price > 0.0
    ensures 2.0 * (POSITION_AMOUNT / price) == 2.0 * POSITION_AMOUNT / price
  {
  }

  /** `n` lots of size `step`. */
  function LotsOf(n: int, step: real): real {
    Times(n as real, step)
  }

  /** A volume that is a whole number of lots. */
  ghost predicate IsLot(step: real, v: real) {
    exists n: int :: v == LotsOf(n, step)
  }

  /** Nearest integer, halves away from zero, for a non-negative argument. */
  function RoundHalfAway(x: real): int
    requires x >= 0.0
  {
    (x + 0.5).Floor
  }

  function NearestSteps(v: real, step: real): int
    requires step > 0.0
  {
    StepsAreNonNegative(v, step);
    RoundHalfAway(StepsIn(Abs(v), step))
  }

  function StepsIn(v: real, step: real): real
    requires step != 0.0
  {
    v / step
  }

  lemma StepsInLots(n: int, step: real)
    requires step != 0.0
    ensures StepsIn(LotsOf(n, step), step) == n as real
  {
    TimesThenDivide(n as real, step);
  }

  lemma StepsAreNonNegative(v: real, step: real)
    requires step > 0.0
    ensures StepsIn(Abs(v), step) >= 0.0
    ensures Times(StepsIn(Abs(v), step), step) == Abs(v)
  {
  }

  /** `Symbol::get_qty_floored`: it rounds to the nearest lot although its name says that it floors. */
  function RoundToLot(step: real, v: real): Option<real>
    requires step >= 0.0
  {
    if step == 0.0 then None
    else
      var lots := LotsOf(NearestSteps(v, step), step);
      Some(if v < 0.0 then -lots else lots)
  }

  /** `OrderManager::adjusted_volume`: a zero step and a zero result are errors. */
  function AdjustedVolume(step: real, v: real): Option<real>
    requires step >= 0.0
  {
    match RoundToLot(step, v)
    case None => None
    case Some(r) => if r == 0.0 then None else Some(r)
  }

  lemma NegatedLots(n: int, step: real)
    ensures LotsOf(-n, step) == -LotsOf(n, step)
  {
    TimesDistributes(0.0, n as real, step);
    assert (-n) as real == 0.0 - n as real;
  }

  lemma LotsOrder(n: int, step: real)
    requires step > 0.0
    ensures n >= 1 ==> LotsOf(n, step) >= step
    ensures n <= -1 ==> LotsOf(n, step) <= -step
    ensures n == 0 ==> LotsOf(n, step) == 0.0
  {
    if n >= 1 {
      TimesLeq(1.0, n as real, step);
    } else if n <= -1 {
      TimesLeq(n as real, -1.0, step);
    }
  }

  lemma LotsAdd(step: real, a: real, b: real)
    requires IsLot(step, a) && IsLot(step, b)
    ensures IsLot(step, a + b) && IsLot(step, -a) && IsLot(step, 0.0)
  {
    var n :| a == LotsOf(n, step);
    var m :| b == LotsOf(m, step);
    TimesDistributes(n as real, m as real, step);
    assert a + b == LotsOf(n + m, step);
    NegatedLots(n, step);
    assert -a == LotsOf(-n, step);
    assert 0.0 == LotsOf(0, step);
  }

  lemma SignedLot(step: real, v: real, side: Side)
    requires IsLot(step, v)
    ensures IsLot(step, Signed(v, side))
  {
    LotsAdd(step, v, v);
  }

  /** A lot that is smaller than the step is zero. */
  lemma SmallLotIsZero(step: real, v: real)
    requires IsLot(step, v) && Abs(v) < step
    ensures v == 0.0
  {
    var n :| v == LotsOf(n, step);
    LotsOrder(n, step);
  }

  lemma RoundingKeepsLots(step: real, n: int)
    requires step > 0.0
    ensures RoundToLot(step, LotsOf(n, step)) == Some(LotsOf(n, step))
  {
    var k := if n < 0 then -n else n;
    NegatedLots(n, step);
    LotsOrder(n, step);
    StepsInLots(k, step);
    NearestStepsOfLots(LotsOf(n, step), k, step);
  }

  lemma NearestStepsOfLots(v: real, k: nat, step: real)
    requires step > 0.0 && StepsIn(Abs(v), step) == k as real
    ensures NearestSteps(v, step) == k
  {
    RoundInteger(k);
  }

  lemma RoundInteger(k: nat)
    ensures RoundHalfAway(k as real) == k
  {
  }

  /**
   * Rounding gives the nearest lot, on the side of the argument, and of two that are equally near the larger one;
   * rounding twice changes nothing.
   */
  lemma RoundToLotIsNearestAndIdempotent(step: real, v: real)
    requires step > 0.0
    ensures var r := RoundToLot(step, v).value;
      && IsLot(step, r)
      && 2.0 * Abs(r - v) <= step && 2.0 * (Abs(v) - Abs(r)) < step
      && (r > 0.0 ==> v > 0.0) && (r < 0.0 ==> v < 0.0)
      && RoundToLot(step, r) == Some(r)
      && (r == 0.0 <==> 2.0 * Abs(v) < step)
  {
    var n := NearestSteps(v, step);
    var lots := LotsOf(n, step);
    StepsAreNonNegative(v, step);
    NearestLots(StepsIn(Abs(v), step), step);
    NegatedLots(n, step);
    LotsOrder(n, step);
    assert -lots == LotsOf(-n, step);
    RoundingKeepsLots(step, n);
    RoundingKeepsLots(step, -n);
  }

  lemma NearestLots(x: real, step: real)
    requires step > 0.0 && x >= 0.0
    ensures var lots := LotsOf(RoundHalfAway(x), step);
      && RoundHalfAway(x) >= 0
      && lots <= Times(x, step) + 0.5 * step
      && Times(x, step) < lots + 0.5 * step
  {
    var n := RoundHalfAway(x) as real;
    TimesLeq(n, x + 0.5, step);
    TimesDistributes(x, 0.5, step);
    TimesLess(x, n + 0.5, step);
    TimesDistributes(n, 0.5, step);
  }

  /** What survives adjustment is a non-zero lot of the same sign, and adjusting it again keeps it. */
  lemma AdjustedVolumeIsStable(step: real, v: real)
    requires step >= 0.0
    ensures AdjustedVolume(step, v).None? <==> step == 0.0 || 2.0 * Abs(v) < step
    ensures AdjustedVolume(step, v).Some? ==>
      var r := AdjustedVolume(step, v).value;
      && IsLot(step, r) && r != 0.0 && (r < 0.0 <==> v < 0.0)
      && AdjustedVolume(step, r) == Some(r)
      && AdjustedVolume(step, -r) == Some(-r)
  {
    if step > 0.0 {
      RoundToLotIsNearestAndIdempotent(step, v);
      var r := RoundToLot(step, v).value;
      var n :| r == LotsOf(n, step);
      NegatedLots(n, step);
      RoundingKeepsLots(step, -n);
    }
  }

  lemma AdjustedLot(step: real, v: real)
    requires step > 0.0 && IsLot(step, v) && v != 0.0
    ensures AdjustedVolume(step, v) == Some(v)
  {
    var n :| v == LotsOf(n, step);
    RoundingKeepsLots(step, n);
  }
}
