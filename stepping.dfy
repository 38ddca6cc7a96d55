/**
 * Counting the positions of a walk that moves by a fixed positive step.
 *
 * Every generator loop has the shape "start at first; while still inside the
 * limit, emit a line and move by step". With exact real arithmetic the k-th
 * position is first -/+ k * step, and the walk stays inside the limit for
 * exactly Count(span, step) positions, where span is the distance from the
 * first position to the limit.
 */
module Stepping {

  /** The number of positions 0, step, 2 * step, ... that are at most span. */
  function Count(span: real, step: real): nat
    requires step > 0.0
    decreases if span < 0.0 then 0 else (span / step).Floor + 1
  {
    if span < 0.0 then 0
    else
      DivShift(span, step);
      1 + Count(span - step, step)
  }

  lemma DivShift(span: real, step: real)
    requires step > 0.0
    ensures (span - step) / step == span / step - 1.0
  {
    var q, r := span / step, (span - step) / step;
    assert q * step == span;
    assert r * step == span - step;
    var d := r - q + 1.0;
    assert d * step == 0.0;
    if d != 0.0 {
      assert false;
    }
  }

  /** Count is exactly the number of whole steps that fit in the span. */
  lemma {:induction false} CountExact(span: real, step: real, k: nat)
    requires step > 0.0
    ensures k < Count(span, step) <==> (k as real) * step <= span
    decreases k
  {
    if span < 0.0 {
      assert (k as real) * step >= 0.0;
    } else if k > 0 {
      CountExact(span - step, step, k - 1);
      assert ((k - 1) as real) * step == (k as real) * step - step;
    }
  }
}
