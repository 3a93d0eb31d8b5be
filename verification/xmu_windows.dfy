/** Window statistics of XMU: event counts gathered in the running 4 ms window and folded into a
    halving average when windows pass. */
module XmuWindows {
  import opened FixedPoint

  const WIN_DURATION_NS := 4000000
  const CAPACITY_SCALE := 1024
  const MAX_LIMIT_SCALE := 192

  datatype Action = Tick | PutPrev | SetNext

  datatype Stat = Stat(avg: nat, curr: nat)

  /** Start of the running window and time of the last update. */
  datatype Clock = Clock(start: nat, update: nat)

  function Min(a: nat, b: nat): nat {
    if a < b then a else b
  }

  // ---------------------------------------------------------------- the clock

  /** Windows that pass when the clock is moved to `now`; a tick always closes one. */
  function Passed(c: Clock, now: nat, action: Action): nat
    requires c.start <= now
  {
    if action.Tick? then 1 else (now - c.start) / WIN_DURATION_NS
  }

  function Advance(c: Clock, now: nat, action: Action): Clock
    requires c.start <= now
  {
    if action.Tick? then Clock(now, now)
    else Clock(c.start + Passed(c, now, action) * WIN_DURATION_NS, now)
  }

  ghost predicate Synced(c: Clock) {
    c.start <= c.update < c.start + WIN_DURATION_NS
  }

  datatype Sample = Sample(delta: nat, now: nat, action: Action)

  /** Samples arrive at strictly later times; others are dropped by the callers. */
  ghost predicate Timely(c: Clock, run: seq<Sample>)
    requires Synced(c)
    decreases |run|
  {
    run == [] || (run[0].now > c.update && Timely(Advance(c, run[0].now, run[0].action), run[1..]))
  }

  ghost function ClockAfter(c: Clock, run: seq<Sample>): Clock
    requires Synced(c) && Timely(c, run)
    decreases |run|
  {
    if run == [] then c else ClockAfter(Advance(c, run[0].now, run[0].action), run[1..])
  }

  ghost function Windows(c: Clock, run: seq<Sample>): nat
    requires Synced(c) && Timely(c, run)
    decreases |run|
  {
    if run == [] then 0
    else Passed(c, run[0].now, run[0].action) + Windows(Advance(c, run[0].now, run[0].action), run[1..])
  }

  /** Between ticks windows are neither lost nor counted twice: however the time is cut up by
      context switches, their number is that of the whole windows since the first start. */
  lemma {:induction false} WindowsAddUp(c: Clock, run: seq<Sample>)
    requires Synced(c) && Timely(c, run) && forall k :: 0 <= k < |run| ==> !run[k].action.Tick?
    ensures ClockAfter(c, run).start == c.start + Windows(c, run) * WIN_DURATION_NS
    ensures Synced(ClockAfter(c, run))
    ensures Windows(c, run) == (ClockAfter(c, run).update - c.start) / WIN_DURATION_NS
    decreases |run|
  {
    if run != [] {
      WindowsAddUp(Advance(c, run[0].now, run[0].action), run[1..]);
    }
  }

  // ---------------------------------------------------------------- one statistic

  /** Gather `delta`, then fold if windows passed. */
  function Move(s: Stat, delta: nat, passed: nat): Stat {
    if passed == 0 then Stat(s.avg, s.curr + delta)
    else Halve(Stat(s.avg, s.curr + delta), passed)
  }

  /** The shift by the number of passed windows, capped at the word size. */
  function Shift(passed: nat): nat {
    Min(passed, 63)
  }

  function Halve(s: Stat, passed: nat): Stat {
    Stat(Quotient(s.avg + s.curr, Pow2(Shift(passed))), 0)
  }

  /** What passing windows do to a statistic: without one the count goes to the open window; with `n`
      of them all there is ends up in the average, halved `n` times and rounded down once. Beyond 63
      halvings nothing is left of a 63-bit count either way. */
  lemma MoveHalves(s: Stat, delta: nat, passed: nat)
    requires s.avg + s.curr + delta < 0x8000_0000_0000_0000
    ensures var r := Move(s, delta, passed);
            if passed == 0 then r == Stat(s.avg, s.curr + delta)
            else r.curr == 0 && r.avg * Pow2(passed) <= s.avg + s.curr + delta < (r.avg + 1) * Pow2(passed)
  {
    if passed > 0 {
      HalvedOnce(s.avg + s.curr + delta, passed);
      hide Quotient, Pow2, Shift;
    }
  }

  lemma HalvedOnce(total: nat, passed: nat)
    requires total < 0x8000_0000_0000_0000 && passed > 0
    ensures var q := Quotient(total, Pow2(Shift(passed))); q * Pow2(passed) <= total < (q + 1) * Pow2(passed)
  {
    hide Pow2;
    if passed < 63 {
      QuotientBounds(total, Pow2(passed));
    } else {
      Pow2Of63();
      Pow2Mono(63, passed);
      assert Shift(passed) == 63;
      SmallQuotient(total, Pow2(63));
    }
  }

  lemma SmallQuotient(a: nat, d: nat)
    requires a < d
    ensures Quotient(a, d) == 0
  {
  }

  lemma Pow2Of63()
    ensures Pow2(63) == 0x8000_0000_0000_0000
  {
    assert Pow2(9) == 512;
    Pow2Add(9, 9);
    Pow2Add(18, 9);
    Pow2Add(27, 9);
    Pow2Add(36, 9);
    Pow2Add(45, 9);
    Pow2Add(54, 9);
  }

  /** A tick closes the open window and opens one now; any other update keeps the grid of 4 ms windows
      and closes those that are over. */
  lemma AdvanceKeepsGrid(c: Clock, now: nat, action: Action)
    requires Synced(c) && now > c.update
    ensures var r, n := Advance(c, now, action), Passed(c, now, action);
            && r.update == now
            && if action.Tick? then n == 1 && r.start == now
               else r.start == c.start + 4000000 * n && r.start <= now < r.start + 4000000
  {
  }

  datatype Fold = Fold(delta: nat, passed: nat)

  function Folded(s: Stat, folds: seq<Fold>): Stat {
    if folds == [] then s
    else
      var f := folds[|folds| - 1];
      Move(Folded(s, folds[..|folds| - 1]), f.delta, f.passed)
  }

  function TotalShift(folds: seq<Fold>): nat {
    if folds == [] then 0 else TotalShift(folds[..|folds| - 1]) + Shift(folds[|folds| - 1].passed)
  }

  /** All that was ever gathered, each count weighed against the halvings it escaped. */
  function Weighted(s: Stat, folds: seq<Fold>): nat {
    if folds == [] then s.avg + s.curr
    else
      var front := folds[..|folds| - 1];
      Weighted(s, front) + folds[|folds| - 1].delta * Pow2(TotalShift(front))
  }

  /** Counts gathered since windows last passed. */
  function Unfolded(s: Stat, folds: seq<Fold>): nat {
    if folds == [] then s.curr
    else
      var f := folds[|folds| - 1];
      if f.passed > 0 then 0 else Unfolded(s, folds[..|folds| - 1]) + f.delta
  }

  lemma AddUnder(n: nat, p: nat, d: nat, t: nat)
    requires p > 0 && t > 0
    ensures p * t > 0
    ensures (n / p + d) / t == (n + d * p) / (p * t)
  {
    QuotientBounds(n, p);
    assert (n / p + d) * p == n / p * p + d * p;
    assert (n / p + d + 1) * p == (n / p + 1) * p + d * p;
    QuotientUnique(n + d * p, p, n / p + d);
    DivDiv(n + d * p, p, t);
  }

  /** Rounding never accumulates: after any run, the average and the open window together are the
      exactly weighted sum of all counts, rounded down once. */
  lemma {:induction false} RoundedOnce(s: Stat, folds: seq<Fold>)
    ensures var r := Folded(s, folds);
            && r.avg + r.curr == Weighted(s, folds) / Pow2(TotalShift(folds))
            && r.curr == Unfolded(s, folds)
  {
    if folds != [] {
      var front, f := folds[..|folds| - 1], folds[|folds| - 1];
      RoundedOnce(s, front);
      RoundedStep(Folded(s, front), Weighted(s, front), TotalShift(front), f);
    } else {
      assert Pow2(0) == 1;
    }
  }

  lemma RoundedStep(r: Stat, n: nat, shift: nat, f: Fold)
    requires r.avg + r.curr == n / Pow2(shift)
    ensures var m := Move(r, f.delta, f.passed);
            m.avg + m.curr == (n + f.delta * Pow2(shift)) / Pow2(shift + Shift(f.passed))
  {
    var p, t := Pow2(shift), Pow2(Shift(f.passed));
    Pow2Add(shift, Shift(f.passed));
    AddUnder(n, p, f.delta, t);
  }

  /** Averages stay below any bound that holds for the mass of each single fold. */
  ghost predicate MassBelow(s: Stat, folds: seq<Fold>, m: nat) {
    forall k :: 0 <= k < |folds| ==> Unfolded(s, folds[..k]) + folds[k].delta <= m
  }

  lemma {:induction false} AverageBelowMass(s: Stat, folds: seq<Fold>, m: nat)
    requires s.avg <= m && MassBelow(s, folds, m)
    ensures Folded(s, folds).avg <= m
  {
    if folds != [] {
      var front, f := folds[..|folds| - 1], folds[|folds| - 1];
      assert forall k :: 0 <= k < |front| ==> folds[..k] == front[..k];
      AverageBelowMass(s, front, m);
      RoundedOnce(s, front);
      if f.passed > 0 {
        HalvedBelow(Folded(s, front).avg + (Unfolded(s, front) + f.delta), Shift(f.passed), m);
      }
    }
  }

  lemma HalvedBelow(x: nat, shift: nat, m: nat)
    requires x <= 2 * m && shift > 0
    ensures x / Pow2(shift) <= m
  {
  }

  // ---------------------------------------------------------------- frequency limit

  /** How much of the frequency is kept, out of 1024, when memory stalls make cycles worthless. */
  function LimitRatio(stalls: nat, cycles: nat, factor: nat, stallFactor: nat): (r: nat)
    ensures CAPACITY_SCALE - MAX_LIMIT_SCALE <= r <= CAPACITY_SCALE
    ensures cycles == 0 || factor == 0 || stallFactor == 0 || stalls == 0 ==> r == CAPACITY_SCALE
  {
    if cycles == 0 || factor == 0 || stallFactor == 0 then CAPACITY_SCALE
    else CAPACITY_SCALE - Min(stalls * stallFactor * factor / 1024 / cycles, MAX_LIMIT_SCALE)
  }

  /** The ratio is what stalls leave of 1024: their weighted share of the cycles, in 1024ths and rounded
      down once, up to 192. */
  lemma LimitIsShare(stalls: nat, cycles: nat, factor: nat, stallFactor: nat)
    requires cycles > 0 && factor > 0 && stallFactor > 0
    ensures var cut := 1024 - LimitRatio(stalls, cycles, factor, stallFactor);
            if cut < 192
            then cut * (1024 * cycles) <= stalls * stallFactor * factor < (cut + 1) * (1024 * cycles)
            else cut == 192 && 192 * (1024 * cycles) <= stalls * stallFactor * factor
  {
    var weighted := stalls * stallFactor * factor;
    DivDiv(weighted, 1024, cycles);
    QuotientBounds(weighted, 1024 * cycles);
    var share := weighted / (1024 * cycles);
    if share >= 192 {
      MulMono(192, share, 1024 * cycles);
    }
  }

  /** More stalls never raise the limit. */
  lemma MoreStallsLimitMore(a: nat, b: nat, cycles: nat, factor: nat, stallFactor: nat)
    requires a <= b
    ensures LimitRatio(b, cycles, factor, stallFactor) <= LimitRatio(a, cycles, factor, stallFactor)
  {
    if cycles != 0 && factor != 0 && stallFactor != 0 {
      MulMono(a, b, stallFactor);
      MulMono(a * stallFactor, b * stallFactor, factor);
      DivMono(a * stallFactor * factor, b * stallFactor * factor, 1024);
      DivMono(a * stallFactor * factor / 1024, b * stallFactor * factor / 1024, cycles);
    }
  }

  // ---------------------------------------------------------------- the records themselves

  function MoveAll(stats: seq<Stat>, deltas: seq<nat>, passed: nat): (r: seq<Stat>)
    requires |stats| == |deltas|
    ensures |r| == |stats| && forall i :: 0 <= i < |r| ==> r[i] == Move(stats[i], deltas[i], passed)
  {
    seq(|stats|, i requires 0 <= i < |stats| => Move(stats[i], deltas[i], passed))
  }

  /** `cpu_xmu_info` without the counters: cycles are statistic 0, memory stalls statistic 1. */
  class CpuXmu {
    var lastWindowStart: nat
    var lastUpdateTime: nat
    var limitRatio: nat
    const memStallFactor: nat
    const stats: array<Stat>

    constructor (nr: nat, memStallFactor: nat)
      requires nr >= 2
      ensures Now() == Clock(0, 0) && Synced(Now()) && stats.Length == nr && fresh(stats)
      ensures limitRatio == CAPACITY_SCALE
    {
      lastWindowStart, lastUpdateTime := 0, 0;
      limitRatio := CAPACITY_SCALE;
      this.memStallFactor := memStallFactor;
      stats := new Stat[nr](_ => Stat(0, 0));
    }

    ghost function Now(): Clock
      reads this
    {
      Clock(lastWindowStart, lastUpdateTime)
    }

    /** `cpu_windows_update_move`. */
    method UpdateMove(deltas: seq<nat>, now: nat, action: Action, limitFactor: nat)
      requires |deltas| == stats.Length >= 2 && Synced(Now()) && now > lastUpdateTime
      modifies this, stats
      ensures Synced(Now()) && Now() == Advance(old(Now()), now, action)
      ensures stats[..] == MoveAll(old(stats[..]), deltas, Passed(old(Now()), now, action))
      ensures limitRatio ==
                if Passed(old(Now()), now, action) == 0 then old(limitRatio)
                else LimitRatio(stats[1].avg, stats[0].avg, limitFactor, memStallFactor)
    {
      var nrMove;
      lastUpdateTime := now;
      if action.Tick? {
        lastWindowStart := now;
        nrMove := 1;
      } else {
        nrMove := (now - lastWindowStart) / WIN_DURATION_NS;
        lastWindowStart := lastWindowStart + nrMove * WIN_DURATION_NS;
      }
      ghost var before := stats[..];
      Gather(stats, deltas);
      if nrMove == 0 {
        assert stats[..] == MoveAll(before, deltas, 0);
        return;
      }
      FoldAll(stats, nrMove);
      assert stats[..] == MoveAll(before, deltas, nrMove);
      limitRatio := LimitRatio(stats[1].avg, stats[0].avg, limitFactor, memStallFactor);
    }
  }

  method Gather(stats: array<Stat>, deltas: seq<nat>)
    requires |deltas| == stats.Length
    modifies stats
    ensures forall i :: 0 <= i < stats.Length ==> stats[i] == old(stats[i]).(curr := old(stats[i]).curr + deltas[i])
  {
    for i := 0 to stats.Length
      invariant forall j :: 0 <= j < i ==> stats[j] == old(stats[j]).(curr := old(stats[j]).curr + deltas[j])
      invariant forall j :: i <= j < stats.Length ==> stats[j] == old(stats[j])
    {
      stats[i] := stats[i].(curr := stats[i].curr + deltas[i]);
    }
  }

  method FoldAll(stats: array<Stat>, nrMove: nat)
    modifies stats
    ensures forall i :: 0 <= i < stats.Length ==> stats[i] == Halve(old(stats[i]), nrMove)
  {
    hide Halve;
    for i := 0 to stats.Length
      invariant forall j :: 0 <= j < i ==> stats[j] == Halve(old(stats[j]), nrMove)
      invariant forall j :: i <= j < stats.Length ==> stats[j] == old(stats[j])
    {
      stats[i] := Halve(stats[i], nrMove);
    }
  }

  /** `task_xmu_info`: an update that is not later than the last is dropped, and a task that is
      just being switched to is not charged for what ran before it. */
  class TaskXmu {
    var lastWindowStart: nat
    var lastUpdateTime: nat
    const stats: array<Stat>

    constructor (nr: nat)
      ensures Now() == Clock(0, 0) && Synced(Now()) && stats.Length == nr && fresh(stats)
    {
      lastWindowStart, lastUpdateTime := 0, 0;
      stats := new Stat[nr](_ => Stat(0, 0));
    }

    ghost function Now(): Clock
      reads this
    {
      Clock(lastWindowStart, lastUpdateTime)
    }

    /** `task_windows_update_move`. */
    method UpdateMove(deltas: seq<nat>, now: nat, action: Action)
      requires |deltas| == stats.Length && Synced(Now())
      modifies this, stats
      ensures Synced(Now())
      ensures now <= old(lastUpdateTime) ==> Now() == old(Now()) && stats[..] == old(stats[..])
      ensures now > old(lastUpdateTime) ==>
                && Now() == Advance(old(Now()), now, action)
                && stats[..] == MoveAll(old(stats[..]), if action.SetNext? then seq(|deltas|, _ => 0) else deltas,
                                        Passed(old(Now()), now, action))
    {
      if now <= lastUpdateTime {
        return;
      }
      var nrMove;
      lastUpdateTime := now;
      if action.Tick? {
        lastWindowStart := now;
        nrMove := 1;
      } else {
        nrMove := (now - lastWindowStart) / WIN_DURATION_NS;
        lastWindowStart := lastWindowStart + nrMove * WIN_DURATION_NS;
      }
      ghost var before := stats[..];
      ghost var charged := if action.SetNext? then seq(|deltas|, _ => 0) else deltas;
      if !action.SetNext? {
        Gather(stats, deltas);
      }
      if nrMove == 0 {
        assert stats[..] == MoveAll(before, charged, 0);
        return;
      }
      FoldAll(stats, nrMove);
      assert stats[..] == MoveAll(before, charged, nrMove);
    }
  }
}
