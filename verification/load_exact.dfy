/** The load update against exact arithmetic: what the closed form computes, and how far the
    fixed-point code can drift from it. */
module LoadExact {
  import opened LoadDecay
  import opened LoadTracker

  // ---------------------------------------------------------------- the closed form

  /** A sum after one period boundary. */
  function Decayed(sum: real, y: real): real {
    sum * y
  }

  function Power(y: real, p: nat): real
    decreases p
  {
    if p == 0 then 1.0 else Decayed(Power(y, p - 1), y)
  }

  /** Sum of a full period every period forever, decayed by `y` per period. */
  function Limit(y: real): (m: real)
    requires y < 1.0
    ensures m * (1.0 - y) == 1024.0
  {
    1024.0 / (1.0 - y)
  }

  function ClosedForm(u: real, d1: real, d3: real, y: real, p: nat): real
    requires y < 1.0
  {
    FourTerms(u, d1, Limit(y), Power(y, p)) + d3
  }

  /** The same interval one period at a time: finish the old period, then one full period after
      the other, decaying at each boundary. */
  function PeriodByPeriod(u: real, d1: real, y: real, p: nat): real
    requires p >= 1
    decreases p
  {
    if p == 1 then Decayed(u + d1, y) else Decayed(PeriodByPeriod(u, d1, y, p - 1) + 1024.0, y)
  }

  lemma LimitRecurs(y: real)
    requires y < 1.0
    ensures Decayed(Limit(y), y) == Limit(y) - 1024.0
  {
  }

  lemma {:induction false} ClosedFormIsPeriodByPeriod(u: real, d1: real, d3: real, y: real, p: nat)
    requires p >= 1 && 0.0 < y < 1.0
    ensures PeriodByPeriod(u, d1, y, p) + d3 == ClosedForm(u, d1, d3, y, p)
    decreases p
  {
    hide FourTerms, Limit, Decayed;
    LimitRecurs(y);
    if p == 1 {
      FirstPeriod(u, d1, Limit(y), y);
      assert Power(y, 1) == Decayed(Power(y, 0), y);
    } else {
      ClosedFormIsPeriodByPeriod(u, d1, 0.0, y, p - 1);
      OnePeriodMore(u, d1, Limit(y), y, Power(y, p - 1), PeriodByPeriod(u, d1, y, p - 1));
    }
  }

  function FourTerms(u: real, d1: real, m: real, w: real): real {
    u * w + d1 * w + (m - m * w - 1024.0)
  }

  lemma FirstPeriod(u: real, d1: real, m: real, y: real)
    requires Decayed(m, y) == m - 1024.0
    ensures FourTerms(u, d1, m, Decayed(1.0, y)) == Decayed(u + d1, y)
  {
  }

  lemma OnePeriodMore(u: real, d1: real, m: real, y: real, w: real, sum: real)
    requires Decayed(m, y) == m - 1024.0
    requires sum == FourTerms(u, d1, m, w)
    ensures Decayed(sum + 1024.0, y) == FourTerms(u, d1, m, Decayed(w, y))
  {
  }

  // ---------------------------------------------------------------- drift of the fixed-point code

  /** One update with the table's exact factor instead of floored products. */
  function IdealSum(sum: real, ld: Load, scaledContrib: nat, scaledDelta: nat): real
    requires Inv(ld)
  {
    var p := Periods(ld.periodContrib, scaledDelta);
    if p == 0 then sum + NsToUs(scaledContrib) as real
    else
      Decayed(sum, DecayFactor(p)) + IdealCredit(ld, scaledContrib, scaledDelta, p)
  }

  function IdealCredit(ld: Load, scaledContrib: nat, scaledDelta: nat, p: nat): real
    requires Inv(ld)
  {
    if scaledContrib == 0 then 0.0
    else
      Scaled(PERIOD_US - NsToUs(ld.periodContrib), DecayFactor(p))
      + (LOAD_AVG_MAX as real - Scaled(LOAD_AVG_MAX, DecayFactor(p)) - PERIOD_US as real)
      + Remainder(ld.periodContrib, scaledDelta) as real
  }

  const DRIFT: real := 187.0

  /** From the first boundary on, the factor is at most that of one period. */
  lemma FactorBelow(p: nat)
    requires p >= 1
    ensures 0.0 < DecayFactor(p) <= 0.97858
  {
    var i, h := p % HALF_LIFE, p / HALF_LIFE;
    var t, d := LOAD_YN_INV[i], Denominator(h);
    TableDecreasing(i);
    assert 100000 * t <= 97858 * d by {
      if h == 0 {
        assert d == Q32;
        assert LOAD_YN_INV[i] <= 0xfa83b2da;
      } else {
        AtLeastHalved(h);
      }
    }
    RatioBelow(t, d);
  }

  lemma AtLeastHalved(h: nat)
    requires h >= 1
    ensures Denominator(h) >= 2 * Q32
  {
  }

  lemma RatioBelow(t: nat, d: nat)
    requires t > 0 && d > 0 && 100000 * t <= 97858 * d
    ensures 0.0 < Ratio(t, d) <= 0.97858
  {
  }

  /** One update moves the code at most 4 below and 2 above where the ideal update of the same
      starting sum would be. */
  lemma UpdateDrift(ld: Load, c: nat, d: nat)
    requires Inv(ld) && c <= d
    ensures -4.0 < ComputedSum(ld, c, d) as real - IdealSum(ld.loadSum as real, ld, c, d) < 2.0
  {
    hide DecayLoad, DecayFactor, Scaled, Decayed;
    ElapsedTimeFits(ld.periodContrib, c, d);
    SumBelowCeiling(ld, c, d);
    var p := Periods(ld.periodContrib, d);
    if p > 0 {
      DecayWithinTwo(ld.loadSum, p);
      DecayWithinTwo(PERIOD_US - NsToUs(ld.periodContrib), p);
      DecayWithinTwo(LOAD_AVG_MAX, p);
      ScaledIsProduct(ld.loadSum, p);
    }
  }

  lemma ScaledIsProduct(val: nat, p: nat)
    ensures Scaled(val, DecayFactor(p)) == Decayed(val as real, DecayFactor(p))
  {
  }

  /** An error shrinks by the decay factor at a boundary and grows by at most 4. */
  lemma DriftCarries(a: real, b: real, ld: Load, c: nat, d: nat)
    requires Inv(ld)
    requires -DRIFT <= a - b <= DRIFT
    ensures var p := Periods(ld.periodContrib, d);
            var e := IdealSum(a, ld, c, d) - IdealSum(b, ld, c, d);
            if p == 0 then e == a - b else -183.0 <= e <= 183.0
  {
    hide DecayFactor, IdealCredit, Decayed;
    var p := Periods(ld.periodContrib, d);
    if p > 0 {
      FactorBelow(p);
      ErrorShrinks(a, b, DecayFactor(p));
    }
  }

  /** 183 is what is left of an error of 187 after one period, and leaves room for 4. */
  lemma ErrorShrinks(a: real, b: real, f: real)
    requires 0.0 < f <= 0.97858 && -DRIFT <= a - b <= DRIFT
    ensures -183.0 <= Decayed(a, f) - Decayed(b, f) <= 183.0
  {
    DecayedDifference(a, b, f);
    DecayedBelow(a - b, f);
    DecayedBelow(b - a, f);
    hide Decayed;
  }

  lemma DecayedDifference(a: real, b: real, f: real)
    ensures Decayed(a, f) - Decayed(b, f) == Decayed(a - b, f)
    ensures Decayed(b, f) - Decayed(a, f) == Decayed(b - a, f)
  {
  }

  lemma DecayedBelow(e: real, f: real)
    requires 0.0 < f <= 0.97858 && e <= DRIFT
    ensures Decayed(e, f) <= 183.0
  {
    RealMulMono(e, DRIFT, f);
  }

  /** The ideal sum next to a real run: same samples, same period boundaries, no rounding in any
      decay. */
  function IdealStep(sum: real, ld: Load, e: Event): real
    requires Inv(ld)
  {
    match e
    case Sleep => sum
    case Sample(now, contrib, s) =>
      var c := TimeScale(contrib, s);
      if c > 0 && NsToUs(c) == 0 then sum
      else IdealSum(sum, ld, c, TimeScale(Sub64(now, ld.lastUpdate), s))
  }

  function IdealRun(sum: real, ld: Load, events: seq<Event>): real
    requires Inv(ld) && TimelyRun(ld, events)
    decreases |events|
  {
    if events == [] then sum
    else
      StepKeepsInv(ld, events[0]);
      IdealRun(IdealStep(sum, ld, events[0]), Step(ld, events[0]), events[1..])
  }

  lemma StepKeepsInv(ld: Load, e: Event)
    requires Inv(ld)
    requires e.Sample? ==> Timely(ld, e.now, e.contrib) && e.now < U64
    ensures Inv(Step(ld, e))
    ensures e.Sample? ==> SampleIsQuiet(ld, e.now, e.contrib, e.scale)
  {
    hide Accumulate, Estimate, SampleIsQuiet, Inv;
    match e {
      case Sample(now, contrib, s) => AccumulateKeepsInv(ld, now, contrib, s);
      case Sleep => assert Inv(Estimate(ld));
    }
  }

  lemma StepDrift(sum: real, ld: Load, e: Event)
    requires Inv(ld)
    requires e.Sample? ==> Timely(ld, e.now, e.contrib) && e.now < U64
    requires -DRIFT <= ld.loadSum as real - sum <= DRIFT
    ensures -DRIFT <= Step(ld, e).loadSum as real - IdealStep(sum, ld, e) <= DRIFT
  {
    hide ComputedSum, IdealSum, Periods, Remainder, TimeScale, Inv;
    match e {
      case Sleep =>
      case Sample(now, contrib, s) =>
        AccumulateKeepsInv(ld, now, contrib, s);
        var c, d := TimeScale(contrib, s), TimeScale(now - ld.lastUpdate, s);
        assert Sub64(now, ld.lastUpdate) == now - ld.lastUpdate;
        TimeScaleMono(contrib, now - ld.lastUpdate, s);
        if !(c > 0 && NsToUs(c) == 0) {
          SumDrift(sum, ld, c, d);
        }
    }
  }

  lemma SumDrift(sum: real, ld: Load, c: nat, d: nat)
    requires Inv(ld) && c <= d
    requires -DRIFT <= ld.loadSum as real - sum <= DRIFT
    ensures -DRIFT <= ComputedSum(ld, c, d) as real - IdealSum(sum, ld, c, d) <= DRIFT
  {
    hide DecayLoad, DecayFactor, IdealCredit;
    UpdateDrift(ld, c, d);
    DriftCarries(ld.loadSum as real, sum, ld, c, d);
  }

  lemma {:induction false} DriftAlong(sum: real, ld: Load, events: seq<Event>)
    requires Inv(ld) && TimelyRun(ld, events)
    requires -DRIFT <= ld.loadSum as real - sum <= DRIFT
    ensures -DRIFT <= Run(ld, events).loadSum as real - IdealRun(sum, ld, events) <= DRIFT
    decreases |events|
  {
    hide Step, IdealStep, Inv;
    if events != [] {
      StepKeepsInv(ld, events[0]);
      StepDrift(sum, ld, events[0]);
      DriftAlong(IdealStep(sum, ld, events[0]), Step(ld, events[0]), events[1..]);
    }
  }

  /** However long a task lives, rounding never moves its sum more than 187 (of 47742) away from
      the sum kept with exact decay. */
  lemma EveryRunStaysNearIdeal(events: seq<Event>)
    requires TimelyRun(INIT_LOAD, events)
    ensures -DRIFT <= Run(INIT_LOAD, events).loadSum as real - IdealRun(0.0, INIT_LOAD, events) <= DRIFT
  {
    DriftAlong(0.0, INIT_LOAD, events);
  }
}
