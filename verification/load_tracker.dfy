/** Per-task load tracking of `trans_loading.c`: the update, the estimate, and every run of both. */
module LoadTracker {
  import opened FixedPoint
  import opened LoadDecay

  /** The fields of `struct task_load` the computation reads and writes. */
  datatype Load = Load(
    loadSum: nat,
    periodContrib: nat,
    lastUpdate: nat,
    loadAvg: nat,
    lastLoadAvg: nat,
    loadEst: nat)

  const INIT_LOAD := Load(0, 0, 0, 0, 0, 1024)

  /** Capacity and frequency scale seen by one update, in units of 1/1024. */
  datatype Scale = Scale(capacity: nat, frequency: nat)

  function NsToUs(ns: nat): nat {
    ns / 1024
  }

  function UsToNs(us: nat): nat {
    us * 1024
  }

  function TimeScale(delta: nat, s: Scale): nat {
    CapScale(CapScale(delta, s.capacity), s.frequency)
  }

  function CapScale(v: nat, scale: nat): nat {
    v * scale / 1024
  }

  lemma CapScaleMono(a: nat, b: nat, scale: nat)
    requires a <= b
    ensures CapScale(a, scale) <= CapScale(b, scale)
  {
    MulMono(a, b, scale);
    DivMono(a * scale, b * scale, 1024);
  }

  lemma TimeScaleMono(a: nat, b: nat, s: Scale)
    requires a <= b
    ensures TimeScale(a, s) <= TimeScale(b, s)
  {
    CapScaleMono(a, b, s.capacity);
    CapScaleMono(CapScale(a, s.capacity), CapScale(b, s.capacity), s.frequency);
  }

  /** Load of a task that never left the CPU up to `contrib` into the current period. */
  function Ceiling(periodContrib: nat): nat {
    LOAD_AVG_MAX - PERIOD_US + NsToUs(periodContrib)
  }

  function ScaleLoad(ld: Load): nat {
    ld.loadSum * 1024 / Ceiling(ld.periodContrib)
  }

  /** Whole periods completed when `scaled` nanoseconds follow a period already `contrib` old. */
  function Periods(periodContrib: nat, scaled: nat): nat {
    NsToUs(scaled + periodContrib) / PERIOD_US
  }

  /** Microseconds of the period that is current afterwards. */
  function Remainder(periodContrib: nat, scaled: nat): nat {
    NsToUs(scaled + periodContrib) % PERIOD_US
  }

  predicate Inv(ld: Load) {
    && ld.periodContrib % 1024 == 0
    && NsToUs(ld.periodContrib) < PERIOD_US
    && ld.loadSum <= Ceiling(ld.periodContrib)
    && ld.loadAvg <= 1024
    && ld.lastLoadAvg <= 1024
    && ld.loadEst <= 1024
  }

  /** Unsigned 64-bit subtraction. */
  function Sub64(a: nat, b: nat): nat {
    (a - b) % U64
  }

  /** The sum as it is computed, every subtraction unsigned, before the clamp. */
  function ComputedSum(ld: Load, scaledContrib: nat, scaledDelta: nat): nat {
    var p := Periods(ld.periodContrib, scaledDelta);
    if p == 0 then ld.loadSum + NsToUs(scaledContrib)
    else
      DecayLoad(ld.loadSum, p) +
      if scaledContrib == 0 then 0
      else
        DecayLoad(Sub64(PERIOD_US, NsToUs(ld.periodContrib)), p)
        + Sub64(Sub64(LOAD_AVG_MAX, DecayLoad(LOAD_AVG_MAX, p)), PERIOD_US)
        + Remainder(ld.periodContrib, scaledDelta)
  }

  /** The same terms over the integers, where nothing wraps. */
  function ExactTerms(ld: Load, scaledContrib: nat, scaledDelta: nat): int
    requires Inv(ld)
  {
    var p := Periods(ld.periodContrib, scaledDelta);
    if p == 0 then ld.loadSum + NsToUs(scaledContrib)
    else if scaledContrib == 0 then DecayLoad(ld.loadSum, p)
    else
      DecayLoad(ld.loadSum, p)
      + DecayLoad(PERIOD_US - NsToUs(ld.periodContrib), p)
      + (LOAD_AVG_MAX - DecayLoad(LOAD_AVG_MAX, p) - PERIOD_US)
      + Remainder(ld.periodContrib, scaledDelta)
  }

  /** A sample that arrives in order and claims no more time than has passed. */
  predicate Timely(ld: Load, now: nat, contrib: nat) {
    ld.lastUpdate <= now && contrib <= now - ld.lastUpdate
  }

  /** A contribution fits if a period boundary was crossed, or if it is no more than the current
      period has grown by, in whole microseconds. */
  predicate Fits(periodContrib: nat, c: nat, d: nat) {
    Periods(periodContrib, d) > 0 || NsToUs(periodContrib) + NsToUs(c) <= Remainder(periodContrib, d)
  }

  /** The heart of the bound: on a sample that fits no subtraction wraps, and the sum stays below the
      ceiling of the period it ends in, hence below `LOAD_AVG_MAX`: the clamp never fires. */
  lemma SumBelowCeiling(ld: Load, c: nat, d: nat)
    requires Inv(ld) && Fits(ld.periodContrib, c, d)
    ensures ComputedSum(ld, c, d) == ExactTerms(ld, c, d)
    ensures ComputedSum(ld, c, d) <= Ceiling(UsToNs(Remainder(ld.periodContrib, d))) <= LOAD_AVG_MAX
  {
    hide DecayLoad;
    var p := Periods(ld.periodContrib, d);
    var d3 := Remainder(ld.periodContrib, d);
    assert NsToUs(UsToNs(d3)) == d3;
    if p > 0 {
      FullPeriodsTerm(p);
      var d1 := PERIOD_US - NsToUs(ld.periodContrib);
      DecaySuperadditive(ld.loadSum, d1, p);
      DecayMonotone(ld.loadSum + d1, LOAD_AVG_MAX, p);
      DecayMonotone(ld.loadSum, LOAD_AVG_MAX, p);
    }
  }

  /** A record filled to the ceiling of its period. */
  function Full(periodContrib: nat): Load {
    Load(Ceiling(periodContrib), periodContrib, 0, 0, 0, 0)
  }

  /** Which contributions keep the ceiling, whatever the load so far: exactly those that fit. Once a
      boundary is crossed any contribution does, for it only decides whether the interval counts. */
  lemma CeilingHoldsExactly(periodContrib: nat, c: nat, d: nat)
    requires periodContrib % 1024 == 0 && NsToUs(periodContrib) < PERIOD_US
    ensures (forall ld :: Inv(ld) && ld.periodContrib == periodContrib ==>
                            ComputedSum(ld, c, d) <= Ceiling(UsToNs(Remainder(periodContrib, d))))
              <==> Fits(periodContrib, c, d)
  {
    hide ComputedSum;
    if Fits(periodContrib, c, d) {
      forall ld | Inv(ld) && ld.periodContrib == periodContrib
        ensures ComputedSum(ld, c, d) <= Ceiling(UsToNs(Remainder(periodContrib, d)))
      {
        SumBelowCeiling(ld, c, d);
      }
    } else {
      FullOverflows(periodContrib, c, d);
      assert Inv(Full(periodContrib));
    }
  }

  lemma FullOverflows(periodContrib: nat, c: nat, d: nat)
    requires Periods(periodContrib, d) == 0
    requires NsToUs(periodContrib) + NsToUs(c) > Remainder(periodContrib, d)
    ensures ComputedSum(Full(periodContrib), c, d) > Ceiling(UsToNs(Remainder(periodContrib, d)))
  {
  }

  /** Inside one period the rounded contribution is at most the rounded elapsed time. */
  lemma ElapsedTimeFits(pc: nat, c: nat, d: nat)
    requires pc % 1024 == 0 && c <= d
    ensures Fits(pc, c, d)
  {
  }

  function Min(a: nat, b: nat): nat {
    if a < b then a else b
  }

  /** State after one sample: dropped when it scales to less than a microsecond, otherwise decayed,
      accumulated, clamped, and averaged whenever a period boundary was crossed. */
  function Accumulate(ld: Load, now: nat, contrib: nat, s: Scale): Load {
    var c := TimeScale(contrib, s);
    if c > 0 && NsToUs(c) == 0 then ld
    else
      var d := TimeScale(Sub64(now, ld.lastUpdate), s);
      var stored := ld.(
        loadSum := Min(ComputedSum(ld, c, d), LOAD_AVG_MAX),
        lastUpdate := now,
        periodContrib := UsToNs(Remainder(ld.periodContrib, d)));
      if Periods(ld.periodContrib, d) == 0 then stored else stored.(loadAvg := ScaleLoad(stored))
  }

  lemma AccumulateKeepsInv(ld: Load, now: nat, contrib: nat, s: Scale)
    requires Inv(ld) && Timely(ld, now, contrib) && now < U64
    ensures Inv(Accumulate(ld, now, contrib, s))
    ensures SampleIsQuiet(ld, now, contrib, s)
  {
    hide ComputedSum;
    assert Sub64(now, ld.lastUpdate) == now - ld.lastUpdate;
    var c, d := TimeScale(contrib, s), TimeScale(now - ld.lastUpdate, s);
    TimeScaleMono(contrib, now - ld.lastUpdate, s);
    ElapsedTimeFits(ld.periodContrib, c, d);
    SumBelowCeiling(ld, c, d);
    var pc := UsToNs(Remainder(ld.periodContrib, d));
    assert NsToUs(pc) == Remainder(ld.periodContrib, d);
    AverageBelow1024(ld.(loadSum := ComputedSum(ld, c, d), periodContrib := pc));
  }

  /** The clamp at `LOAD_AVG_MAX` changes nothing on this sample. */
  predicate SampleIsQuiet(ld: Load, now: nat, contrib: nat, s: Scale) {
    ComputedSum(ld, TimeScale(contrib, s), TimeScale(Sub64(now, ld.lastUpdate), s)) <= LOAD_AVG_MAX
  }

  lemma AverageBelow1024(ld: Load)
    requires ld.loadSum <= Ceiling(ld.periodContrib)
    ensures ScaleLoad(ld) <= 1024
  {
    var top := Ceiling(ld.periodContrib);
    MulMono(ld.loadSum, top, 1024);
    DivMono(ld.loadSum * 1024, 1024 * top, top);
    QuotientUnique(1024 * top, top, 1024);
  }

  // ---------------------------------------------------------------- what an update computes

  /** `avg` is the share of the ceiling, in units of 1/1024 and rounded down, that a sum is after
      `periodContrib` ns of the open period. */
  predicate IsShare(avg: nat, loadSum: nat, periodContrib: nat) {
    avg * (46718 + periodContrib / 1024) <= 1024 * loadSum < (avg + 1) * (46718 + periodContrib / 1024)
  }

  lemma AverageIsShare(ld: Load)
    ensures IsShare(ScaleLoad(ld), ld.loadSum, ld.periodContrib)
  {
    QuotientBounds(ld.loadSum * 1024, Ceiling(ld.periodContrib));
  }

  /** A task that never left the CPU has the full average. */
  lemma FullShareIs1024(avg: nat, loadSum: nat, periodContrib: nat)
    requires IsShare(avg, loadSum, periodContrib)
    ensures loadSum == 46718 + periodContrib / 1024 ==> avg == 1024
  {
    var top := 46718 + periodContrib / 1024;
    if loadSum == top {
      assert 1024 * top <= 1024 * loadSum < (1024 + 1) * top;
      QuotientUnique(1024 * loadSum, top, avg);
      QuotientUnique(1024 * loadSum, top, 1024);
    }
  }

  /** Time scaled by capacity and frequency is their product over 2^20, less what the two roundings
      take: below one of its own units and one of the frequency's. */
  lemma ScaledTime(delta: nat, s: Scale)
    ensures TimeScale(delta, s) * 0x10_0000 <= delta * s.capacity * s.frequency
    ensures delta * s.capacity * s.frequency < (TimeScale(delta, s) + 1) * 0x10_0000 + 1024 * s.frequency
    ensures s == Scale(1024, 1024) ==> TimeScale(delta, s) == delta
  {
    var c := CapScale(delta, s.capacity);
    var f := s.frequency;
    QuotientBounds(delta * s.capacity, 1024);
    MulMono(c * 1024, delta * s.capacity, f);
    MulMono(delta * s.capacity, (c + 1) * 1024 - 1, f);
    QuotientBounds(c * f, 1024);
    assert c * 1024 * f == c * f * 1024;
    assert (c + 1) * 1024 * f == c * f * 1024 + 1024 * f;
    assert ((c + 1) * 1024 - 1) * f == (c + 1) * 1024 * f - f;
  }

  /** One update in its own terms, for `c` ns of contribution and `d` ns of elapsed time, both scaled.
      A contribution that rounds to nothing is put off together with its time. Otherwise the clock
      moves on and the open period is what is left of whole periods, in whole microseconds. Inside a
      period the sum grows by the contribution and the average stays; across a boundary the average
      is the share of the new sum. */
  lemma UpdateComputes(ld: Load, now: nat, contrib: nat, s: Scale)
    requires ld.periodContrib % 1024 == 0
    ensures var r := Accumulate(ld, now, contrib, s);
            var c, d := TimeScale(contrib, s), TimeScale((now - ld.lastUpdate) % U64, s);
            if 0 < c < 1024 then r == ld
            else
              && r.lastUpdate == now && r.lastLoadAvg == ld.lastLoadAvg && r.loadEst == ld.loadEst
              && r.loadSum <= 47742
              && r.periodContrib % 1024 == 0
              && r.periodContrib <= (ld.periodContrib + d) % 0x10_0000 < r.periodContrib + 1024
              && (ld.periodContrib + d < 0x10_0000 ==>
                    r.loadSum == Min(ld.loadSum + c / 1024, 47742) && r.loadAvg == ld.loadAvg)
              && (ld.periodContrib + d >= 0x10_0000 ==> IsShare(r.loadAvg, r.loadSum, r.periodContrib))
  {
    var c, d := TimeScale(contrib, s), TimeScale((now - ld.lastUpdate) % U64, s);
    var r := Accumulate(ld, now, contrib, s);
    if !(0 < c < 1024) {
      WholePeriods(ld.periodContrib + d);
      AverageIsShare(r);
      hide TimeScale, ScaleLoad, DecayLoad, IsShare;
    }
  }

  lemma WholePeriods(ns: nat)
    ensures NsToUs(ns) / PERIOD_US == 0 <==> ns < 0x10_0000
    ensures UsToNs(NsToUs(ns) % PERIOD_US) <= ns % 0x10_0000 < UsToNs(NsToUs(ns) % PERIOD_US) + 1024
  {
  }

  /** A sleeping task only decays: across a boundary its sum is the old one decayed by the periods
      that passed. */
  lemma SleepDecays(ld: Load, now: nat, s: Scale)
    ensures var d := TimeScale((now - ld.lastUpdate) % U64, s);
            var p := (ld.periodContrib + d) / 0x10_0000;
            p > 0 ==> Accumulate(ld, now, 0, s).loadSum == Min(DecayLoad(ld.loadSum, p), 47742)
  {
    var d := TimeScale((now - ld.lastUpdate) % U64, s);
    ScaledTime(0, s);
    PeriodsIs(ld.periodContrib + d);
    hide DecayLoad, ScaleLoad;
  }

  lemma PeriodsIs(ns: nat)
    ensures NsToUs(ns) / PERIOD_US == ns / 0x10_0000
  {
    DivDiv(ns, 1024, PERIOD_US);
  }

  // ---------------------------------------------------------------- the estimate

  const MARGIN: nat := 10
  const U32: nat := 0x1_0000_0000

  /** Unsigned-compare trick for `|value| < margin`. */
  predicate WithinMargin(value: int, margin: nat)
    requires margin > 0
  {
    (value + margin - 1) % U32 < 2 * margin - 1
  }

  lemma WithinMarginIsAbs(value: int, margin: nat)
    requires 0 < margin
    requires -0x8000_0000 <= value && value + margin < 0x8000_0000
    ensures WithinMargin(value, margin) <==> -(margin as int) < value < margin
  {
  }

  /** Follow the average up at once, down by a quarter of the distance, in 64-bit arithmetic. */
  function Estimate(ld: Load): (r: Load)
    ensures Inv(ld) ==> Inv(r)
  {
    if ld.loadEst < ld.loadAvg then ld.(loadEst := ld.loadAvg)
    else if WithinMargin(ld.lastLoadAvg - ld.loadAvg, MARGIN) then ld
    else ld.(lastLoadAvg := ld.loadAvg, loadEst := (4 * ld.loadEst + ld.loadAvg - ld.loadEst) % U64 / 4)
  }

  /** The estimate never falls below the average it tracks, never moves away from it, and a load
      at rest for one more sample keeps at least three quarters of its lead. */
  lemma EstimateTracksFromAbove(ld: Load)
    requires 4 * ld.loadEst + ld.loadAvg < U64
    ensures ld.loadAvg <= Estimate(ld).loadEst
    ensures ld.loadAvg <= ld.loadEst ==> Estimate(ld).loadEst <= ld.loadEst
    ensures ld.loadAvg <= ld.loadEst ==>
              4 * (Estimate(ld).loadEst - ld.loadAvg) >= 3 * (ld.loadEst - ld.loadAvg) - 3
    ensures ld.loadEst < ld.loadAvg ==> Estimate(ld).loadEst == ld.loadAvg
  {
  }

  /** One estimate in its own terms: up to the average at once; unmoved while the average is within ten
      of the one last seen; otherwise a quarter of the way down to it, rounded down. */
  lemma EstimateComputes(ld: Load)
    requires 4 * ld.loadEst + ld.loadAvg < U64 && ld.loadAvg < 0x4000_0000 && ld.lastLoadAvg < 0x4000_0000
    ensures var r := Estimate(ld);
            && r == ld.(loadEst := r.loadEst, lastLoadAvg := r.lastLoadAvg)
            && if ld.loadEst < ld.loadAvg then r.loadEst == ld.loadAvg && r.lastLoadAvg == ld.lastLoadAvg
               else if -10 < ld.lastLoadAvg - ld.loadAvg < 10 then r == ld
               else r.lastLoadAvg == ld.loadAvg && 4 * r.loadEst <= 3 * ld.loadEst + ld.loadAvg < 4 * r.loadEst + 4
  {
  }

  lemma Wraps64(a: int, d: int)
    ensures (a % U64 + d) % U64 == (a + d) % U64
  {
  }

  // ---------------------------------------------------------------- the object in the kernel

  class TaskLoad {
    var loadSum: nat
    var periodContrib: nat
    var lastUpdate: nat
    var loadAvg: nat
    var lastLoadAvg: nat
    var loadEst: nat

    function Snapshot(): Load
      reads this
    {
      Load(loadSum, periodContrib, lastUpdate, loadAvg, lastLoadAvg, loadEst)
    }

    constructor ()
      ensures Snapshot() == INIT_LOAD
    {
      loadSum, periodContrib, lastUpdate := 0, 0, 0;
      loadAvg, lastLoadAvg := 0, 0;
      loadEst := 1024;
    }

    /** The update, statement by statement. */
    method AccumulateLoading(now: nat, contrib: nat, s: Scale)
      modifies this
      ensures Snapshot() == Accumulate(old(Snapshot()), now, contrib, s)
    {
      hide DecayLoad, TimeScale;
      var scaled := TimeScale(contrib, s);
      var scaleContrib := NsToUs(scaled);
      if scaled > 0 && scaleContrib == 0 {
        return;
      }
      var sum := loadSum + scaleContrib;
      var delta := TimeScale(Sub64(now, lastUpdate), s);
      lastUpdate := now;
      delta := NsToUs(delta + periodContrib);
      var periods := delta / PERIOD_US;
      var c := 0;
      if periods > 0 {
        var u := DecayLoad(loadSum, periods);
        delta := delta % PERIOD_US;
        if scaled > 0 {
          var d1 := Sub64(PERIOD_US, NsToUs(periodContrib));
          var c1 := DecayLoad(d1, periods);
          var c2 := Sub64(Sub64(LOAD_AVG_MAX, DecayLoad(LOAD_AVG_MAX, periods)), PERIOD_US);
          c := c1 + c2 + delta;
        }
        sum := u + c;
      }
      periodContrib := UsToNs(delta);
      loadSum := Min(sum, LOAD_AVG_MAX);
      if periods > 0 {
        loadAvg := ScaleLoad(Snapshot());
      }
    }

    /** The estimate, with the signed difference added to an unsigned left-shifted value. */
    method UpdateLoadEst()
      modifies this
      ensures Snapshot() == Estimate(old(Snapshot()))
    {
      hide WithinMargin;
      if loadEst < loadAvg {
        loadEst := loadAvg;
        return;
      }
      var lastAvgDiff := lastLoadAvg - loadAvg;
      if WithinMargin(lastAvgDiff, MARGIN) {
        return;
      }
      lastLoadAvg := loadAvg;
      var lastEstDiff := loadAvg - loadEst;
      Wraps64(loadEst * 4, lastEstDiff);
      var est := loadEst * 4 % U64;
      est := (est + lastEstDiff) % U64;
      loadEst := est / 4;
    }
  }

  // ---------------------------------------------------------------- runs

  datatype Event = Sample(now: nat, contrib: nat, scale: Scale) | Sleep

  function Step(ld: Load, e: Event): Load {
    match e
    case Sample(now, contrib, s) => Accumulate(ld, now, contrib, s)
    case Sleep => Estimate(ld)
  }

  function Run(ld: Load, events: seq<Event>): Load
    decreases |events|
  {
    if events == [] then ld else Run(Step(ld, events[0]), events[1..])
  }

  /** Every sample of the run is in order and claims no more time than has passed. */
  predicate TimelyRun(ld: Load, events: seq<Event>)
    decreases |events|
  {
    events == [] ||
    (&& (events[0].Sample? ==> Timely(ld, events[0].now, events[0].contrib) && events[0].now < U64)
     && TimelyRun(Step(ld, events[0]), events[1..]))
  }

  /** No sample of the run meets the clamp. */
  predicate QuietRun(ld: Load, events: seq<Event>)
    decreases |events|
  {
    events == [] ||
    (&& (events[0].Sample? ==> SampleIsQuiet(ld, events[0].now, events[0].contrib, events[0].scale))
     && QuietRun(Step(ld, events[0]), events[1..]))
  }

  lemma {:induction false} RunKeepsInv(ld: Load, events: seq<Event>)
    requires Inv(ld) && TimelyRun(ld, events)
    ensures Inv(Run(ld, events)) && QuietRun(ld, events)
    decreases |events|
  {
    hide Accumulate, Estimate, SampleIsQuiet, Inv;
    if events != [] {
      match events[0] {
        case Sample(now, contrib, s) => AccumulateKeepsInv(ld, now, contrib, s);
        case Sleep => assert Inv(Estimate(ld));
      }
      RunKeepsInv(Step(ld, events[0]), events[1..]);
    }
  }

  /** Whatever a task does from its creation on, its load and its estimate stay on the 0..1024
      scale, its sum stays under the ceiling of its current period, and no update was clamped. */
  lemma EveryRunStaysOnScale(events: seq<Event>)
    requires TimelyRun(INIT_LOAD, events)
    ensures var r := Run(INIT_LOAD, events);
            && r.loadAvg <= 1024
            && r.loadEst <= 1024
            && r.loadSum <= Ceiling(r.periodContrib) < LOAD_AVG_MAX
            && r.periodContrib % 1024 == 0 && NsToUs(r.periodContrib) < 1024
    ensures QuietRun(INIT_LOAD, events)
  {
    RunKeepsInv(INIT_LOAD, events);
  }
}
