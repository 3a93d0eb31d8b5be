/** Cycle estimates of XMU: each CPU accumulates the estimates of the tasks queued on it, in its
    own cycle domain, while tasks migrate, are resampled and have their estimates renewed. */
module XmuCycles {
  import opened FixedPoint

  const U64 := 0x1_0000_0000_0000_0000
  const U63 := 0x8000_0000_0000_0000

  /** `task_xmu_info`: the estimate is a 63-bit field. */
  datatype Info = Info(est: nat, onRq: bool, cycleCpu: int, avg: nat, curr: nat)

  /** Per-task records and `cpu_cycle_est` of every CPU. */
  datatype State = State(tasks: seq<Info>, load: seq<nat>)

  const ZEROED := Info(0, false, 0, 0, 0)

  /** `xmu_cycle_convert_cpu`. */
  function Convert(cycles: nat, oldScale: nat, newScale: nat): nat {
    if cycles == 0 || oldScale == newScale || oldScale == 0 || newScale == 0 then cycles
    else cycles * oldScale % U64 / newScale
  }

  lemma FloorThereAndBack(xa: nat, y: nat, a: nat, b: nat)
    requires a > 0 && b > 0 && y == xa / b
    ensures y * b / a <= xa / a
    ensures xa < (y * b / a + 1) * a + b
  {
    QuotientBounds(xa, b);
    QuotientBounds(y * b, a);
    DivMono(y * b, xa, a);
    assert (y + 1) * b == y * b + b;
  }

  lemma ConvertQuotient(x: nat, xa: nat, a: nat, b: nat)
    requires a > 0 && b > 0 && xa == x * a < U64
    ensures Convert(x, a, b) == if a == b then x else xa / b
  {
  }

  /** Moving an estimate to another CPU and back never inflates it, and what it loses is less
      than one cycle of the slower domain plus one. */
  lemma ConvertThereAndBack(x: nat, a: nat, b: nat)
    requires a > 0 && b > 0 && x * a < U64 && Convert(x, a, b) * b < U64
    ensures var z := Convert(Convert(x, a, b), b, a); z <= x && x * a < (z + 1) * a + b
  {
    hide Convert;
    var xa, y := x * a, Convert(x, a, b);
    ConvertQuotient(x, xa, a, b);
    ConvertQuotient(y, y * b, b, a);
    if a == b {
      assert (x + 1) * a == x * a + a;
    } else {
      FloorThereAndBack(xa, y, a, b);
      QuotientUnique(xa, a, x);
    }
  }

  /** What a task's estimate becomes when it leaves the run queue. */
  function Renewed(est: nat, avg: nat): nat {
    if est <= avg then avg % U63
    else
      var d := est - avg;
      (est * 4 % U64 - (d + d / 2)) % U64 / 4 % U63
  }

  lemma RenewedIs(est: nat, avg: nat)
    requires avg < est < U63 / 2
    ensures Renewed(est, avg) == (est * 4 - (est - avg + (est - avg) / 2)) / 4
  {
    var d := est - avg;
    assert est * 4 % U64 == est * 4;
    assert (est * 4 - (d + d / 2)) % U64 == est * 4 - (d + d / 2);
  }

  /** The estimate jumps up at once and comes down by three eighths of the gap, to within rounding,
      never below the measured average. */
  lemma RenewedApproaches(est: nat, avg: nat)
    requires est < U63 / 2 && avg < U63
    ensures avg <= Renewed(est, avg) <= if est <= avg then avg else est - 1
    ensures est > avg ==> Renewed(est, avg) - avg <= (5 * (est - avg) + 1) / 8
    ensures est > avg ==> 8 * (Renewed(est, avg) - avg) >= 5 * (est - avg) - 6
  {
    if est > avg {
      RenewedIs(est, avg);
      hide Renewed;
    }
  }

  function RenewedTimes(est: nat, avg: nat, n: nat): nat
    decreases n
  {
    if n == 0 then est else RenewedTimes(Renewed(est, avg), avg, n - 1)
  }

  /** Under a constant average the estimate settles on it, at the latest after as many dequeues as
      the gap is wide, and stays there. */
  lemma {:induction false} EstimateSettles(est: nat, avg: nat, n: nat)
    requires est < U63 / 2 && avg < U63 / 2
    requires n >= 1 && n >= est - avg
    ensures RenewedTimes(est, avg, n) == avg
    decreases n
  {
    hide Renewed;
    RenewedApproaches(est, avg);
    if n > 1 {
      EstimateSettles(Renewed(est, avg), avg, n - 1);
    } else {
      assert RenewedTimes(est, avg, 1) == RenewedTimes(Renewed(est, avg), avg, 0);
    }
  }

  // ---------------------------------------------------------------- steps

  /** Cycle counts follow the task into the cycle domain of the CPU it is queued on. */
  function Moved(i: Info, cpu: nat, scales: seq<nat>): Info
    requires 0 <= i.cycleCpu < |scales| && cpu < |scales|
  {
    if i.cycleCpu == cpu then i
    else
      var from, to := scales[i.cycleCpu], scales[cpu];
      Info(Convert(i.est, from, to) % U63, i.onRq, cpu, Convert(i.avg, from, to), Convert(i.curr, from, to))
  }

  function Enqueue(s: State, scales: seq<nat>, cpu: nat, t: nat): State
    requires t < |s.tasks| && cpu < |s.load| == |scales|
  {
    var i := s.tasks[t];
    if i.onRq || !(0 <= i.cycleCpu < |scales|) then s
    else
      var m := Moved(i, cpu, scales);
      State(s.tasks[t := m.(onRq := true)], s.load[cpu := (s.load[cpu] + m.est) % U64])
  }

  function Dequeue(s: State, cpu: nat, t: nat): State
    requires t < |s.tasks| && cpu < |s.load|
  {
    var i := s.tasks[t];
    if !i.onRq then s
    else
      State(s.tasks[t := i.(onRq := false, est := Renewed(i.est, i.avg))],
            s.load[cpu := (s.load[cpu] - i.est) % U64])
  }

  /** `Sample` stands for any change of a task's window statistics, `Create` for a new task. */
  datatype Event =
    | EnqueueOn(cpu: nat, t: nat)
    | DequeueFrom(cpu: nat, t: nat)
    | Sample(t: nat, avg: nat, curr: nat)
    | Create

  /** A queued task is dequeued from the run queue it was last put on. */
  predicate Legal(s: State, e: Event) {
    match e
    case EnqueueOn(cpu, t) => cpu < |s.load| && t < |s.tasks|
    case DequeueFrom(cpu, t) => cpu < |s.load| && t < |s.tasks| && (s.tasks[t].onRq ==> s.tasks[t].cycleCpu == cpu)
    case Sample(t, _, _) => t < |s.tasks|
    case Create => true
  }

  function Step(s: State, scales: seq<nat>, e: Event): (r: State)
    requires |s.load| == |scales| && Legal(s, e)
    ensures |r.load| == |s.load|
  {
    match e
    case EnqueueOn(cpu, t) => Enqueue(s, scales, cpu, t)
    case DequeueFrom(cpu, t) => Dequeue(s, cpu, t)
    case Sample(t, avg, curr) => s.(tasks := s.tasks[t := s.tasks[t].(avg := avg, curr := curr)])
    case Create => s.(tasks := s.tasks + [ZEROED])
  }

  // ---------------------------------------------------------------- what the steps do

  /** `now` cycles of a CPU of scale `to` are the same work as `was` cycles of one of scale `from`, less
      a rounding of one cycle. */
  predicate SameWork(was: nat, now: nat, from: nat, to: nat) {
    now * to <= was * from < (now + 1) * to
  }

  lemma ConvertKeepsWork(x: nat, from: nat, to: nat)
    requires from > 0 && to > 0 && x * from < U64
    ensures SameWork(x, Convert(x, from, to), from, to)
  {
    ConvertQuotient(x, x * from, from, to);
    QuotientBounds(x * from, to);
    hide Convert;
    if from == to {
      assert x * from < (x + 1) * to by {
        assert (x + 1) * to == x * to + to;
      }
    }
  }

  lemma ConvertFits(x: nat, from: nat, to: nat)
    requires from > 0 && to > 0 && x * from < U64 && x * from < U63 * to
    ensures Convert(x, from, to) < U63
  {
    ConvertKeepsWork(x, from, to);
    hide Convert;
    if Convert(x, from, to) >= U63 {
      MulMono(U63, Convert(x, from, to), to);
    }
  }

  /** A record counted in cycles of scale `from` and one in cycles of scale `to` that describe the same
      work. */
  predicate Rescaled(i: Info, m: Info, from: nat, to: nat) {
    SameWork(i.est, m.est, from, to) && SameWork(i.avg, m.avg, from, to) && SameWork(i.curr, m.curr, from, to)
  }

  /** The product with the old scale overflows in none of the three counts, and the estimate fits its
      field afterwards. */
  predicate Convertible(i: Info, from: nat, to: nat) {
    && from > 0 && to > 0
    && i.est * from < U64 && i.est * from < U63 * to && i.avg * from < U64 && i.curr * from < U64
  }

  lemma ConvertAsIs(x: nat, from: nat, to: nat)
    ensures !Comparable(from, to) ==> Convert(x, from, to) == x
  {
  }

  /** Between CPUs of one scale, or where a scale is not known, counts are carried over as they are. */
  predicate Comparable(from: nat, to: nat) {
    from != to && from != 0 && to != 0
  }

  lemma MoveKeepsWork(i: Info, cpu: nat, scales: seq<nat>)
    requires 0 <= i.cycleCpu < |scales| && cpu < |scales|
    ensures var m := Moved(i, cpu, scales);
            && m.cycleCpu == cpu && m.onRq == i.onRq
            && (i.cycleCpu == cpu ==> m == i)
            && (!Comparable(scales[i.cycleCpu], scales[cpu]) && i.est < U63 ==> m == i.(cycleCpu := cpu))
            && (i.cycleCpu != cpu && Convertible(i, scales[i.cycleCpu], scales[cpu]) ==>
                  Rescaled(i, m, scales[i.cycleCpu], scales[cpu]))
  {
    ConvertAsIs(i.est, scales[i.cycleCpu], scales[cpu]);
    ConvertAsIs(i.avg, scales[i.cycleCpu], scales[cpu]);
    ConvertAsIs(i.curr, scales[i.cycleCpu], scales[cpu]);
    hide Convert, SameWork;
    if i.cycleCpu != cpu && Convertible(i, scales[i.cycleCpu], scales[cpu]) {
      var from, to := scales[i.cycleCpu], scales[cpu];
      ConvertKeepsWork(i.est, from, to);
      ConvertFits(i.est, from, to);
      ConvertKeepsWork(i.avg, from, to);
      ConvertKeepsWork(i.curr, from, to);
    }
  }

  /** Nothing but the record of `t` and the load of `cpu` differs. */
  predicate OnlyAt(s: State, r: State, t: nat, cpu: nat) {
    && |r.tasks| == |s.tasks| && |r.load| == |s.load|
    && (forall x :: 0 <= x < |s.tasks| && x != t ==> r.tasks[x] == s.tasks[x])
    && (forall c :: 0 <= c < |s.load| && c != cpu ==> r.load[c] == s.load[c])
  }

  /** Enqueueing carries the work of a task over to the CPU it is queued on and adds its estimate to
      that CPU; a task that is queued already, or was on no known CPU, is left alone. */
  lemma EnqueueMovesWork(s: State, scales: seq<nat>, cpu: nat, t: nat)
    requires t < |s.tasks| && cpu < |s.load| == |scales|
    ensures var r, i := Enqueue(s, scales, cpu, t), s.tasks[t];
            if i.onRq || i.cycleCpu < 0 || i.cycleCpu >= |scales| then r == s
            else
              && OnlyAt(s, r, t, cpu)
              && r.tasks[t].onRq && r.tasks[t].cycleCpu == cpu
              && r.load[cpu] == (s.load[cpu] + r.tasks[t].est) % U64
              && (i.cycleCpu == cpu ==> r.tasks[t] == i.(onRq := true))
              && (!Comparable(scales[i.cycleCpu], scales[cpu]) && i.est < U63 ==>
                    r.tasks[t] == i.(onRq := true, cycleCpu := cpu))
              && (i.cycleCpu != cpu && Convertible(i, scales[i.cycleCpu], scales[cpu]) ==>
                    Rescaled(i, r.tasks[t], scales[i.cycleCpu], scales[cpu]))
  {
    hide SameWork;
    var i := s.tasks[t];
    if !i.onRq && 0 <= i.cycleCpu < |scales| {
      MoveKeepsWork(i, cpu, scales);
      hide Moved, Convertible;
    }
  }

  /** Dequeueing takes the estimate off the CPU and then renews it: at once up to the average, or three
      eighths of the way down to it. */
  lemma DequeueRenews(s: State, cpu: nat, t: nat)
    requires t < |s.tasks| && cpu < |s.load| && s.tasks[t].est < U63 / 2 && s.tasks[t].avg < U63
    ensures var r, i := Dequeue(s, cpu, t), s.tasks[t];
            if !i.onRq then r == s
            else
              && OnlyAt(s, r, t, cpu)
              && r.tasks[t] == i.(onRq := false, est := r.tasks[t].est)
              && r.load[cpu] == (s.load[cpu] - i.est) % U64
              && if i.est <= i.avg then r.tasks[t].est == i.avg
                 else 5 * (i.est - i.avg) - 6 <= 8 * (r.tasks[t].est - i.avg) <= 5 * (i.est - i.avg) + 1
  {
    hide Renewed;
    RenewedApproaches(s.tasks[t].est, s.tasks[t].avg);
  }

  // ---------------------------------------------------------------- conservation

  function Share(i: Info, cpu: nat): nat {
    if i.onRq && i.cycleCpu == cpu then i.est else 0
  }

  /** The estimates of the tasks queued on a CPU, added up. */
  function Total(tasks: seq<Info>, cpu: nat): nat {
    if tasks == [] then 0
    else Total(tasks[..|tasks| - 1], cpu) + Share(tasks[|tasks| - 1], cpu)
  }

  lemma {:induction false} TotalUpdate(tasks: seq<Info>, t: nat, i: Info, cpu: nat)
    requires t < |tasks|
    ensures Total(tasks[t := i], cpu) == Total(tasks, cpu) - Share(tasks[t], cpu) + Share(i, cpu)
    ensures Share(tasks[t], cpu) <= Total(tasks, cpu)
  {
    var front := tasks[..|tasks| - 1];
    if t == |front| {
      assert tasks[t := i][..|tasks| - 1] == front;
    } else {
      TotalUpdate(front, t, i, cpu);
      assert tasks[t := i][..|tasks| - 1] == front[t := i];
    }
  }

  /** Every CPU carries exactly the estimates of its queued tasks, in 64-bit arithmetic. */
  ghost predicate Conserved(s: State) {
    && (forall c :: 0 <= c < |s.load| ==> s.load[c] == Total(s.tasks, c) % U64)
    && (forall t :: 0 <= t < |s.tasks| ==> s.tasks[t].est < U63)
  }

  lemma StepConserves(s: State, scales: seq<nat>, e: Event)
    requires |s.load| == |scales| && Legal(s, e) && Conserved(s)
    ensures Conserved(Step(s, scales, e))
  {
    hide Convert, Renewed, Total, Conserved;
    match e
    case EnqueueOn(cpu, t) => EnqueueConserves(s, scales, cpu, t);
    case DequeueFrom(cpu, t) => DequeueConserves(s, cpu, t);
    case Sample(t, avg, curr) => SampleConserves(s, t, avg, curr);
    case Create => CreateConserves(s);
  }

  lemma EnqueueConserves(s: State, scales: seq<nat>, cpu: nat, t: nat)
    requires t < |s.tasks| && cpu < |s.load| == |scales| && Conserved(s)
    ensures Conserved(Enqueue(s, scales, cpu, t))
  {
    hide Convert, Total;
    var i := s.tasks[t];
    if !i.onRq && 0 <= i.cycleCpu < |scales| {
      var m := Moved(i, cpu, scales).(onRq := true);
      forall c | 0 <= c < |s.load|
        ensures Enqueue(s, scales, cpu, t).load[c] == Total(s.tasks[t := m], c) % U64
      {
        TotalUpdate(s.tasks, t, m, c);
      }
    }
  }

  /** Leaving the queue keeps the books exactly when it is the queue the task was counted on; an
      empty estimate can leave any. */
  lemma DequeueConserves(s: State, cpu: nat, t: nat)
    requires t < |s.tasks| && cpu < |s.load| && Conserved(s)
    ensures Conserved(Dequeue(s, cpu, t)) <==>
              (s.tasks[t].onRq ==> s.tasks[t].cycleCpu == cpu || s.tasks[t].est == 0)
  {
    hide Total;
    var i := s.tasks[t];
    if i.onRq {
      var r := Dequeue(s, cpu, t);
      var j := i.(onRq := false, est := Renewed(i.est, i.avg));
      assert r.tasks == s.tasks[t := j];
      forall c | 0 <= c < |s.load|
        ensures c != cpu ==> r.load[c] == s.load[c] && Total(r.tasks, c) == Total(s.tasks, c) - Share(i, c)
      {
        TotalUpdate(s.tasks, t, j, c);
      }
      TotalUpdate(s.tasks, t, j, cpu);
      TakeOff(s.load[cpu], Total(s.tasks, cpu), i.est);
      if i.cycleCpu != cpu && i.est != 0 {
        assert r.load[cpu] != Total(r.tasks, cpu) % U64;
      }
    }
  }

  lemma TakeOff(load: nat, total: nat, est: nat)
    requires load == total % U64 && est < U63
    ensures est <= total ==> (load - est) % U64 == (total - est) % U64
    ensures (load - est) % U64 == load <==> est == 0
  {
  }

  lemma SampleConserves(s: State, t: nat, avg: nat, curr: nat)
    requires t < |s.tasks| && Conserved(s)
    ensures Conserved(s.(tasks := s.tasks[t := s.tasks[t].(avg := avg, curr := curr)]))
  {
    forall c | 0 <= c < |s.load|
      ensures Total(s.tasks[t := s.tasks[t].(avg := avg, curr := curr)], c) == Total(s.tasks, c)
    {
      TotalUpdate(s.tasks, t, s.tasks[t].(avg := avg, curr := curr), c);
    }
  }

  lemma CreateConserves(s: State)
    requires Conserved(s)
    ensures Conserved(s.(tasks := s.tasks + [ZEROED]))
  {
  }

  ghost predicate LegalRun(s: State, scales: seq<nat>, events: seq<Event>)
    requires |s.load| == |scales|
    decreases |events|
  {
    events == [] || (Legal(s, events[0]) && LegalRun(Step(s, scales, events[0]), scales, events[1..]))
  }

  ghost function Run(s: State, scales: seq<nat>, events: seq<Event>): (r: State)
    requires |s.load| == |scales| && LegalRun(s, scales, events)
    ensures |r.load| == |s.load|
    decreases |events|
  {
    if events == [] then s else Run(Step(s, scales, events[0]), scales, events[1..])
  }

  lemma {:induction false} RunConserves(s: State, scales: seq<nat>, events: seq<Event>)
    requires |s.load| == |scales| && LegalRun(s, scales, events) && Conserved(s)
    ensures Conserved(Run(s, scales, events))
    decreases |events|
  {
    if events != [] {
      StepConserves(s, scales, events[0]);
      RunConserves(Step(s, scales, events[0]), scales, events[1..]);
    }
  }

  /** After any run from boot, each CPU's accumulated estimate is the sum over its queued tasks,
      and taking any of them off subtracts no more than is there. */
  lemma EveryRunConserves(cpus: nat, scales: seq<nat>, events: seq<Event>, cpu: nat, t: nat)
    requires cpu < cpus == |scales|
    requires LegalRun(State([], seq(cpus, _ => 0)), scales, events)
    ensures var s := Run(State([], seq(cpus, _ => 0)), scales, events);
            && s.load[cpu] == Total(s.tasks, cpu) % U64
            && (Total(s.tasks, cpu) < U64 ==>
                  && s.load[cpu] == Total(s.tasks, cpu)
                  && (t < |s.tasks| && s.tasks[t].onRq && s.tasks[t].cycleCpu == cpu ==> s.tasks[t].est <= s.load[cpu]))
  {
    var s0 := State([], seq(cpus, _ => 0));
    RunConserves(s0, scales, events);
    var s := Run(s0, scales, events);
    if t < |s.tasks| {
      TotalUpdate(s.tasks, t, s.tasks[t], cpu);
    }
  }

  // ---------------------------------------------------------------- the records themselves

  class Xmu {
    const scales: seq<nat>
    const load: array<nat>
    const tasks: array<Info>

    constructor (scales: seq<nat>, n: nat)
      ensures Valid() && fresh(load) && fresh(tasks) && this.scales == scales
      ensures Conserved(Value())
    {
      this.scales := scales;
      load := new nat[|scales|](_ => 0);
      tasks := new Info[n](_ => ZEROED);
      new;
      AllZero(tasks[..]);
    }

    ghost predicate Valid() {
      load.Length == |scales|
    }

    ghost function Value(): State
      reads load, tasks
    {
      State(tasks[..], load[..])
    }

    method XmuTaskEnqueue(cpu: nat, t: nat)
      requires Valid() && cpu < load.Length && t < tasks.Length
      modifies load, tasks
      ensures Value() == Enqueue(old(Value()), scales, cpu, t)
    {
      if tasks[t].onRq {
        return;
      }
      var oldCpu := tasks[t].cycleCpu;
      if oldCpu < 0 || oldCpu >= |scales| {
        return;
      }
      if oldCpu != cpu {
        var oldScale, scale := scales[oldCpu], scales[cpu];
        tasks[t] := tasks[t].(est := Convert(tasks[t].est, oldScale, scale) % U63);
        tasks[t] := tasks[t].(avg := Convert(tasks[t].avg, oldScale, scale));
        tasks[t] := tasks[t].(curr := Convert(tasks[t].curr, oldScale, scale));
        tasks[t] := tasks[t].(cycleCpu := cpu);
      }
      tasks[t] := tasks[t].(onRq := true);
      load[cpu] := (load[cpu] + tasks[t].est) % U64;
    }

    method XmuTaskDequeue(cpu: nat, t: nat)
      requires Valid() && cpu < load.Length && t < tasks.Length
      modifies load, tasks
      ensures Value() == Dequeue(old(Value()), cpu, t)
    {
      if !tasks[t].onRq {
        return;
      }
      var est, avg := tasks[t].est, tasks[t].avg;
      load[cpu] := (load[cpu] - est) % U64;
      tasks[t] := tasks[t].(onRq := false);
      if est <= avg {
        tasks[t] := tasks[t].(est := avg % U63);
      } else {
        var diff := est - avg;
        est := est * 4 % U64;
        est := (est - (diff + diff / 2)) % U64;
        est := est / 4;
        tasks[t] := tasks[t].(est := est % U63);
      }
    }
  }

  lemma {:induction false} AllZero(tasks: seq<Info>)
    requires forall t :: 0 <= t < |tasks| ==> tasks[t] == ZEROED
    ensures forall c :: Total(tasks, c) == 0
  {
    if tasks != [] {
      AllZero(tasks[..|tasks| - 1]);
    }
  }
}
