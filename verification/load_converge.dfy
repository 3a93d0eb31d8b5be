/** The constant generator `trans_gen_inv.c`: iterate `max = max * y_inv / 2^32 + 1024` until it
    stops moving. */
module LoadConverge {
  import opened FixedPoint
  import opened LoadDecay

  function Next(m: nat, yInv: nat): nat {
    m * yInv / Q32 + PERIOD_US
  }

  /** Value after `k` full periods. */
  function Iterate(k: nat, yInv: nat): nat {
    if k == 0 then PERIOD_US else Next(Iterate(k - 1, yInv), yInv)
  }

  lemma NextMono(a: nat, b: nat, yInv: nat)
    requires a <= b
    ensures Next(a, yInv) <= Next(b, yInv)
  {
  }

  lemma {:induction false} IteratesClimb(k: nat, yInv: nat)
    ensures Iterate(k, yInv) <= Iterate(k + 1, yInv)
  {
    hide Next;
    if k == 0 {
      FirstStepClimbs(yInv);
    } else {
      IteratesClimb(k - 1, yInv);
      NextMono(Iterate(k - 1, yInv), Iterate(k, yInv), yInv);
    }
  }

  lemma FirstStepClimbs(yInv: nat)
    ensures PERIOD_US <= Next(PERIOD_US, yInv)
  {
  }

  /** At most `1024 * 2^32 / (2^32 - y_inv)`. */
  ghost predicate Bounded(m: nat, yInv: nat) {
    m * (Q32 - yInv) <= PERIOD_US * Q32
  }

  lemma BoundedIsFinite(m: nat, yInv: nat)
    requires yInv < Q32 && Bounded(m, yInv)
    ensures m <= PERIOD_US * Q32
  {
  }

  lemma {:induction false} IteratesBounded(k: nat, yInv: nat)
    requires yInv < Q32
    ensures Bounded(Iterate(k, yInv), yInv)
  {
    if k == 0 {
      MulMono(Q32 - yInv, Q32, PERIOD_US);
    } else {
      IteratesBounded(k - 1, yInv);
      NextBounded(Iterate(k - 1, yInv), yInv);
    }
  }

  lemma NextBounded(m: nat, yInv: nat)
    requires yInv < Q32
    requires Bounded(m, yInv)
    ensures Bounded(Next(m, yInv), yInv)
  {
    var q := m * yInv / Q32;
    var r := Q32 - yInv;
    QuotientBounds(m * yInv, Q32);
    MulMono(q * Q32, m * yInv, r);
    MulMono(m * r, PERIOD_US * Q32, yInv);
    assert m * yInv * r == m * r * yInv;
    assert q * Q32 * r == q * r * Q32;
    assert PERIOD_US * Q32 * yInv == PERIOD_US * yInv * Q32;
    CancelQ32(q * r, PERIOD_US * yInv);
    assert (q + PERIOD_US) * r == q * r + PERIOD_US * r;
  }

  lemma CancelQ32(a: int, b: int)
    requires a * Q32 <= b * Q32
    ensures a <= b
  {
  }

  ghost predicate IsFixedPoint(m: nat, yInv: nat) {
    Next(m, yInv) == m
  }

  lemma {:induction false} IteratesBelowFixedPoint(k: nat, m: nat, yInv: nat)
    requires IsFixedPoint(m, yInv)
    ensures Iterate(k, yInv) <= m
  {
    if k > 0 {
      IteratesBelowFixedPoint(k - 1, m, yInv);
      NextMono(Iterate(k - 1, yInv), m, yInv);
    } else {
      FixedPointAtLeastPeriod(m, yInv);
    }
  }

  lemma FixedPointAtLeastPeriod(m: nat, yInv: nat)
    requires IsFixedPoint(m, yInv)
    ensures PERIOD_US <= m
  {
  }

  /** The generator's globals `max` and `n`. */
  class Generator {
    var max: nat
    var n: int

    constructor ()
      ensures max == PERIOD_US && n == -1
    {
      max := PERIOD_US;
      n := -1;
    }

    /** The loop stops for every 32-bit factor below one, on the least fixed point of the
        recurrence; the printed `n + 1` is the first period count at which it is reached. */
    method CalcConvergedMax(yInv: nat)
      requires yInv < Q32
      requires max == PERIOD_US && n == -1
      modifies this
      ensures IsFixedPoint(max, yInv)
      ensures forall m: nat :: IsFixedPoint(m, yInv) ==> max <= m
      ensures n >= -1 && max == Iterate(n + 1, yInv)
      ensures forall k: nat :: k < n + 1 ==> Iterate(k, yInv) < Iterate(k + 1, yInv)
      ensures Bounded(max, yInv)
    {
      hide Next, Bounded;
      var last: nat := 0;
      while true
        invariant n >= -1
        invariant n == -1 ==> last == 0 && max == PERIOD_US
        invariant n >= 0 ==> last == max == Iterate(n, yInv)
        invariant forall k: nat :: k < n ==> Iterate(k, yInv) < Iterate(k + 1, yInv)
        decreases if n == -1 then PERIOD_US * Q32 + 1 else PERIOD_US * Q32 - max
      {
        ghost var k := n + 1;
        if n > -1 {
          max := Next(max, yInv);
        }
        if last == max {
          break;
        }
        IteratesClimb(if n >= 0 then n else 0, yInv);
        IteratesBounded(k, yInv);
        BoundedIsFinite(max, yInv);
        last := max;
        n := n + 1;
      }
      n := n - 1;
      IteratesBounded(n + 1, yInv);
      assert IsFixedPoint(max, yInv);
      forall m: nat | IsFixedPoint(m, yInv)
        ensures max <= m
      {
        IteratesBelowFixedPoint(n + 1, m, yInv);
      }
    }
  }

  /** The header constant is what the generator finds for half-life 32: 47742 is a fixed point for
      the table's `y`, and no smaller number is. */
  lemma LoadAvgMaxIsLeastFixedPoint(m: nat)
    ensures IsFixedPoint(LOAD_AVG_MAX, LOAD_YN_INV[1])
    ensures IsFixedPoint(m, LOAD_YN_INV[1]) ==> LOAD_AVG_MAX <= m
  {
  }
}
