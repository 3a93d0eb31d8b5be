/** Lock-depth tracking: how deep a task is in locks of each type and in all, since when, and how
    often it slept for one. */
module LockDepth {

  const U64 := 0x1_0000_0000_0000_0000
  const NS_PER_US := 1000
  const OPT_SPIN_THRESHOLD_US := 500
  const LOCK_PROTECT_TIMEOUT := 4000000

  datatype Kind = Mutex | RtMutex | RwSem

  datatype Option<T> = None | Some(value: T)

  /** One `lock_info` record. */
  datatype Info = Info(depth: int, lockStart: nat, dstart: nat, dcounts: nat, duration: nat)

  /** The records of a task, and the type of lock it is waiting for. */
  datatype State = State(total: Info, mutex: Info, rtmutex: Info, rwsem: Info, ops: Option<Kind>)

  const ZERO := Info(0, 0, 0, 0, 0)
  const CLEARED := State(ZERO, ZERO, ZERO, ZERO, None)

  function Of(s: State, k: Kind): Info {
    match k
    case Mutex => s.mutex
    case RtMutex => s.rtmutex
    case RwSem => s.rwsem
  }

  function With(s: State, k: Kind, i: Info): State {
    match k
    case Mutex => s.(mutex := i)
    case RtMutex => s.(rtmutex := i)
    case RwSem => s.(rwsem := i)
  }

  // ---------------------------------------------------------------- steps

  function StartIf(i: Info, c: bool, t: nat): Info {
    if c then i.(lockStart := t) else i
  }

  function Deeper(i: Info): Info {
    i.(depth := i.depth + 1)
  }

  /** The decrement is clamped at zero, and leaving the last level forgets the start. */
  function Shallower(i: Info): Info {
    var d := if i.depth - 1 < 0 then 0 else i.depth - 1;
    i.(depth := d, lockStart := if d == 0 then 0 else i.lockStart)
  }

  /** `record_lock_starttime` with a time: a lock is taken, after a sleep or without. */
  function Acquire(s: State, k: Kind, t: nat): State {
    if s.ops.Some? then
      With(s, k, StartIf(Of(s, k), true, t)).(total := StartIf(s.total, true, t), ops := None)
    else
      With(s, k, Deeper(StartIf(Of(s, k), Of(s, k).depth == 0, t)))
      .(total := Deeper(StartIf(s.total, s.total.depth == 0, t)))
  }

  /** `record_lock_starttime` with time zero: a lock is released. */
  function Release(s: State, k: Kind): State {
    With(s, k, Shallower(Of(s, k))).(total := Shallower(s.total))
  }

  /** `lock_wait_start`: the critical section is counted before the sleep. */
  function WaitStart(s: State, k: Kind, now: nat, jiffies: nat): State {
    var i := Of(s, k);
    if i.dstart == 0 then
      With(s, k, Deeper(StartIf(i, i.depth == 0, jiffies)).(dstart := now))
      .(total := Deeper(StartIf(s.total, s.total.depth == 0, jiffies)), ops := Some(k))
    else s.(ops := Some(k))
  }

  function Slept(s: State, now: nat): nat {
    if s.ops.Some? then (now - Of(s, s.ops.value).dstart) % U64 else 0
  }

  /** A sleep that counts: not a spin of less than half a millisecond. */
  predicate RealSleep(s: State, now: nat) {
    s.ops.Some? && Of(s, s.ops.value).dstart != 0 && Slept(s, now) / NS_PER_US >= OPT_SPIN_THRESHOLD_US
  }

  /** `sched_waking_dstate_end`. */
  function Waking(s: State, now: nat, jiffies: nat): State {
    if s.ops.None? || Of(s, s.ops.value).dstart == 0 then s
    else
      var k := s.ops.value;
      var i := Of(s, k).(dstart := 0);
      if !RealSleep(s, now) then With(s, k, i)
      else
        With(s, k, i.(lockStart := jiffies, dcounts := i.dcounts + 1, duration := i.duration + Slept(s, now)))
        .(total := s.total.(lockStart := jiffies, dcounts := s.total.dcounts + 1))
  }

  /** Sleeping in any other state than uninterruptibly, or a protection that ran out, clears all. */
  datatype Event =
    | Take(k: Kind, t: nat)
    | Drop(k: Kind)
    | Wait(k: Kind, now: nat, jiffies: nat)
    | Wake(now: nat, jiffies: nat)
    | Reset

  predicate NonZeroClocks(e: Event) {
    match e
    case Take(_, t) => t != 0
    case Drop(_) => true
    case Wait(_, now, jiffies) => now != 0 && jiffies != 0
    case Wake(now, jiffies) => now != 0 && jiffies != 0
    case Reset => true
  }

  function Step(s: State, e: Event): State {
    match e
    case Take(k, t) => Acquire(s, k, t)
    case Drop(k) => Release(s, k)
    case Wait(k, now, jiffies) => WaitStart(s, k, now, jiffies)
    case Wake(now, jiffies) => Waking(s, now, jiffies)
    case Reset => CLEARED
  }

  function Run(events: seq<Event>): State {
    if events == [] then CLEARED else Step(Run(events[..|events| - 1]), events[|events| - 1])
  }

  // ---------------------------------------------------------------- any interleaving

  predicate Started(i: Info) {
    i.depth >= 0 && (i.depth > 0 ==> i.lockStart != 0)
  }

  /** The total never exceeds the parts, sleeps are counted in both, and whoever is in a lock has a
      start to time out from. */
  predicate Inv(s: State) {
    && Started(s.total) && Started(s.mutex) && Started(s.rtmutex) && Started(s.rwsem)
    && s.total.depth <= s.mutex.depth + s.rtmutex.depth + s.rwsem.depth
    && s.total.dcounts == s.mutex.dcounts + s.rtmutex.dcounts + s.rwsem.dcounts
  }

  lemma StepKeepsInv(s: State, e: Event)
    requires Inv(s) && NonZeroClocks(e)
    ensures Inv(Step(s, e))
  {
    hide Inv, Acquire, Release, WaitStart, Waking;
    match e
    case Take(k, t) => TakeKeepsInv(s, k, t);
    case Drop(k) => DropKeepsInv(s, k);
    case Wait(k, now, jiffies) => WaitKeepsInv(s, k, now, jiffies);
    case Wake(now, jiffies) => WakeKeepsInv(s, now, jiffies);
    case Reset => ClearedInv();
  }

  lemma ClearedInv()
    ensures Inv(CLEARED)
  {
  }

  lemma TakeKeepsInv(s: State, k: Kind, t: nat)
    requires Inv(s) && t != 0
    ensures Inv(Acquire(s, k, t))
  {
  }

  lemma DropKeepsInv(s: State, k: Kind)
    requires Inv(s)
    ensures Inv(Release(s, k))
  {
  }

  lemma WaitKeepsInv(s: State, k: Kind, now: nat, jiffies: nat)
    requires Inv(s) && jiffies != 0
    ensures Inv(WaitStart(s, k, now, jiffies))
  {
  }

  lemma WakeKeepsInv(s: State, now: nat, jiffies: nat)
    requires Inv(s) && jiffies != 0
    ensures Inv(Waking(s, now, jiffies))
  {
  }

  lemma {:induction false} EveryRunKeepsInv(events: seq<Event>)
    requires forall e :: e in events ==> NonZeroClocks(e)
    ensures Inv(Run(events))
  {
    if events != [] {
      var front, e := events[..|events| - 1], events[|events| - 1];
      assert events == front + [e];
      EveryRunKeepsInv(front);
      StepKeepsInv(Run(front), e);
    }
  }

  /** Whether the task is spared preemption, and whether its records are cleared instead. */
  function InlockProtect(s: State, jiffies: nat, running: nat, considerRunning: bool): (bool, State) {
    if s.total.depth == 0 then (false, s)
    else if s.total.lockStart != 0 && jiffies > s.total.lockStart &&
            (considerRunning ==> running > LOCK_PROTECT_TIMEOUT)
    then (false, CLEARED)
    else (true, s)
  }

  /** On every run a task in a lock is spared exactly until the tick after its start or, where running
      time counts, until it has also run for 4 ms; its records are cleared when it is not. */
  lemma ProtectedExactly(events: seq<Event>, jiffies: nat, running: nat, considerRunning: bool)
    requires forall e :: e in events ==> NonZeroClocks(e)
    ensures var s := Run(events);
            var r := InlockProtect(s, jiffies, running, considerRunning);
            && (r.0 <==> s.total.depth > 0 &&
                         (jiffies <= s.total.lockStart || (considerRunning && running <= LOCK_PROTECT_TIMEOUT)))
            && r.1 == (if s.total.depth > 0 && !r.0 then CLEARED else s)
            && Inv(r.1)
  {
    EveryRunKeepsInv(events);
  }

  // ---------------------------------------------------------------- what each hook records

  /** The record of `k` and the total change as told; the others stay. */
  predicate OnlyOf(s: State, r: State, k: Kind) {
    forall j :: j != k ==> Of(r, j) == Of(s, j)
  }

  /** Taking a lock after a wait starts its time anew and counts nothing, for the wait was counted.
      Taking one without a wait counts it, and starts the time where it is the first of its type or the
      first of all. */
  lemma AcquireComputes(s: State, k: Kind, t: nat)
    ensures var r := Acquire(s, k, t);
            && OnlyOf(s, r, k) && r.ops == None
            && if s.ops != None
               then Of(r, k) == Of(s, k).(lockStart := t) && r.total == s.total.(lockStart := t)
               else
                 && Of(r, k) == Of(s, k).(depth := Of(s, k).depth + 1,
                                          lockStart := if Of(s, k).depth == 0 then t else Of(s, k).lockStart)
                 && r.total == s.total.(depth := s.total.depth + 1,
                                        lockStart := if s.total.depth == 0 then t else s.total.lockStart)
  {
  }

  /** Dropping a lock takes one off both depths, never below zero, and forgets a start with the last. */
  lemma ReleaseComputes(s: State, k: Kind)
    requires Of(s, k).depth >= 0 && s.total.depth >= 0
    ensures var r := Release(s, k);
            && OnlyOf(s, r, k) && r.ops == s.ops
            && (if Of(s, k).depth <= 1 then Of(r, k) == Of(s, k).(depth := 0, lockStart := 0)
                else Of(r, k) == Of(s, k).(depth := Of(s, k).depth - 1))
            && (if s.total.depth <= 1 then r.total == s.total.(depth := 0, lockStart := 0)
                else r.total == s.total.(depth := s.total.depth - 1))
  {
  }

  /** Starting to wait notes the type; unless a wait of that type is being timed already it also starts
      the timer and counts the lock, with its time where it is the first of its type or of all. */
  lemma WaitComputes(s: State, k: Kind, now: nat, jiffies: nat)
    ensures var r := WaitStart(s, k, now, jiffies);
            && OnlyOf(s, r, k) && r.ops == Some(k)
            && if Of(s, k).dstart != 0 then r == s.(ops := Some(k))
               else
                 && Of(r, k) == Of(s, k).(depth := Of(s, k).depth + 1, dstart := now,
                                          lockStart := if Of(s, k).depth == 0 then jiffies else Of(s, k).lockStart)
                 && r.total == s.total.(depth := s.total.depth + 1,
                                        lockStart := if s.total.depth == 0 then jiffies else s.total.lockStart)
  {
  }

  /** A wake-up from a timed wait stops the timer. One that slept for half a millisecond or more is counted
      with its duration and starts the time of the lock anew; a shorter spin is not. Any other wake-up
      changes nothing. Durations are differences of 64-bit clocks. */
  lemma WakeComputes(s: State, now: nat, jiffies: nat)
    ensures var r := Waking(s, now, jiffies);
            if s.ops == None || Of(s, s.ops.value).dstart == 0 then r == s
            else
              var k := s.ops.value;
              var slept := (now - Of(s, k).dstart) % 0x1_0000_0000_0000_0000;
              && OnlyOf(s, r, k) && r.ops == s.ops
              && if slept < 500000 then Of(r, k) == Of(s, k).(dstart := 0) && r.total == s.total
                 else
                   && Of(r, k) == Of(s, k).(dstart := 0, lockStart := jiffies, dcounts := Of(s, k).dcounts + 1,
                                            duration := Of(s, k).duration + slept)
                   && r.total == s.total.(lockStart := jiffies, dcounts := s.total.dcounts + 1)
  {
  }

  // ---------------------------------------------------------------- well-bracketed runs

  datatype Phase = Going | Asleep(k: Kind) | Woken(k: Kind)

  datatype Counts = Counts(mutex: nat, rtmutex: nat, rwsem: nat)

  /** What the task really does: the locks of each type it holds, the one it waits for, and the waits
      that no wake-up has ended yet. The rest counts what the records get wrong: waits begun anew after
      the wake-up, waits begun while the last one is still timed, and by how much the total has lost
      the sum of the three. */
  datatype Truth = Truth(held: Counts, phase: Phase, timed: set<Kind>, again: Counts, missed: Counts, lost: int)

  const NONE := Counts(0, 0, 0)
  const FREE := Truth(NONE, Going, {}, NONE, NONE, 0)

  function At(c: Counts, k: Kind): nat {
    match k
    case Mutex => c.mutex
    case RtMutex => c.rtmutex
    case RwSem => c.rwsem
  }

  function Put(c: Counts, k: Kind, n: nat): Counts {
    match k
    case Mutex => c.(mutex := n)
    case RtMutex => c.(rtmutex := n)
    case RwSem => c.(rwsem := n)
  }

  function Awaits(t: Truth, k: Kind): nat {
    if t.phase == Asleep(k) || t.phase == Woken(k) then 1 else 0
  }

  /** The depth a type should have, and the one it is counted at. */
  function Deep(t: Truth, k: Kind): nat {
    At(t.held, k) + Awaits(t, k)
  }

  function Counted(t: Truth, k: Kind): int {
    Deep(t, k) + At(t.again, k) - At(t.missed, k)
  }

  function CountedTotal(t: Truth): int {
    Counted(t, Mutex) + Counted(t, RtMutex) + Counted(t, RwSem) - t.lost
  }

  /** A waiter is woken or not, and takes the lock it waits for, or waits for it again; only held locks
      are dropped. */
  predicate Proper(t: Truth, e: Event) {
    NonZeroClocks(e) &&
    match e
    case Take(k, _) => t.phase == Going || t.phase.k == k
    case Drop(k) => t.phase == Going && At(t.held, k) > 0
    case Wait(k, _, _) => t.phase == Going || t.phase.k == k
    case Wake(_, _) => true
    case Reset => false
  }

  /** The start of a wait that is not counted as the one lock awaited: it begins anew after a wake-up,
      or while the last wait for a lock of its type is still being timed, as one that got its lock
      without sleeping leaves it. */
  predicate Miscounts(t: Truth, e: Event) {
    e.Wait? && (t.phase == Woken(e.k) || (t.phase == Going && e.k in t.timed))
  }

  function Really(t: Truth, e: Event): Truth
    requires Proper(t, e)
  {
    match e
    case Take(k, _) => t.(held := Put(t.held, k, At(t.held, k) + 1), phase := Going)
    case Drop(k) =>
      t.(held := Put(t.held, k, At(t.held, k) - 1),
         missed := if Counted(t, k) == 0 then Put(t.missed, k, At(t.missed, k) - 1) else t.missed,
         lost := t.lost + (if CountedTotal(t) > 0 then 1 else 0) - (if Counted(t, k) > 0 then 1 else 0))
    case Wait(k, _, _) =>
      t.(phase := Asleep(k),
         timed := t.timed + {k},
         again := if t.phase == Woken(k) then Put(t.again, k, At(t.again, k) + 1) else t.again,
         missed := if t.phase == Going && k in t.timed then Put(t.missed, k, At(t.missed, k) + 1) else t.missed)
    case Wake(_, _) =>
      if t.phase.Asleep? then t.(phase := Woken(t.phase.k), timed := t.timed - {t.phase.k}) else t
    case Reset => t
  }

  ghost predicate WellBracketed(events: seq<Event>)
    decreases |events|, 0
  {
    events == []
    || (WellBracketed(events[..|events| - 1]) && Proper(Truly(events[..|events| - 1]), events[|events| - 1]))
  }

  /** What is true of the task after such a run. */
  ghost function Truly(events: seq<Event>): Truth
    requires WellBracketed(events)
    decreases |events|, 1
  {
    if events == [] then FREE else Really(Truly(events[..|events| - 1]), events[|events| - 1])
  }

  /** A record is right: its depth is what is counted, there is a start wherever there is depth, and
      nowhere else unless a wait was missed, and a sleep is being timed exactly for the waits that no
      wake-up ended. */
  predicate Right(i: Info, counted: int, missed: nat, timed: bool) {
    && i.depth == counted >= 0
    && (i.depth > 0 ==> i.lockStart != 0)
    && (missed == 0 && i.depth == 0 ==> i.lockStart == 0)
    && (i.dstart != 0 <==> timed)
  }

  predicate RightOf(s: State, t: Truth, k: Kind) {
    Right(Of(s, k), Counted(t, k), At(t.missed, k), k in t.timed)
  }

  predicate RightTotal(s: State, t: Truth) {
    && s.total.depth == CountedTotal(t) >= 0
    && (s.total.depth > 0 ==> s.total.lockStart != 0)
    && (t.missed == NONE && t.lost == 0 && s.total.depth == 0 ==> s.total.lockStart == 0)
  }

  predicate Tracks(s: State, t: Truth) {
    && RightOf(s, t, Mutex) && RightOf(s, t, RtMutex) && RightOf(s, t, RwSem) && RightTotal(s, t)
    && s.ops == (if t.phase == Going then None else Some(t.phase.k))
    && (t.phase.Asleep? ==> t.phase.k in t.timed) && (t.phase.Woken? ==> t.phase.k !in t.timed)
  }

  /** Nothing has been got wrong. */
  predicate Clean(t: Truth) {
    t.again == NONE && t.missed == NONE && t.lost == 0
  }

  predicate Blank(i: Info) {
    i.depth == 0 && i.lockStart == 0 && i.dstart == 0
  }

  lemma BlankTracks(s: State, t: Truth)
    requires Blank(s.total) && Blank(s.mutex) && Blank(s.rtmutex) && Blank(s.rwsem) && s.ops.None?
    requires t.phase == Going && t.timed == {} && Clean(t)
    requires At(t.held, Mutex) == At(t.held, RtMutex) == At(t.held, RwSem) == 0
    ensures Tracks(s, t)
  {
  }

  lemma ClearedTracksFree()
    ensures Tracks(CLEARED, FREE) && Clean(FREE)
  {
    hide Tracks;
    BlankTracks(CLEARED, FREE);
  }

  lemma StepTracks(s: State, t: Truth, e: Event)
    requires Tracks(s, t) && Proper(t, e)
    ensures Tracks(Step(s, e), Really(t, e))
  {
    hide Tracks, Acquire, Release, WaitStart, Waking, Really;
    match e
    case Take(k, u) => TakeTracks(s, t, k, u);
    case Drop(k) => DropTracks(s, t, k);
    case Wait(k, now, jiffies) => WaitTracks(s, t, k, now, jiffies);
    case Wake(now, jiffies) => WakeTracks(s, t, now, jiffies);
    case Reset =>
  }

  lemma TakeTracks(s: State, t: Truth, k: Kind, u: nat)
    requires Tracks(s, t) && Proper(t, Take(k, u))
    ensures Tracks(Acquire(s, k, u), Really(t, Take(k, u)))
  {
    TakeTotal(s, t, k, u);
    hide RightTotal, CountedTotal;
  }

  lemma TakeTotal(s: State, t: Truth, k: Kind, u: nat)
    requires Tracks(s, t) && Proper(t, Take(k, u))
    ensures RightTotal(Acquire(s, k, u), Really(t, Take(k, u)))
  {
  }

  lemma DropTracks(s: State, t: Truth, k: Kind)
    requires Tracks(s, t) && Proper(t, Drop(k))
    ensures Tracks(Release(s, k), Really(t, Drop(k)))
  {
    DropTotal(s, t, k);
    hide RightTotal, CountedTotal;
  }

  lemma DropTotal(s: State, t: Truth, k: Kind)
    requires Tracks(s, t) && Proper(t, Drop(k))
    ensures RightTotal(Release(s, k), Really(t, Drop(k)))
  {
  }

  /** The sleep is timed already: only the reason is noted. */
  lemma TimedWaitTracks(s: State, t: Truth, k: Kind, now: nat, jiffies: nat)
    requires Tracks(s, t) && Proper(t, Wait(k, now, jiffies)) && k in t.timed
    ensures Tracks(WaitStart(s, k, now, jiffies), Really(t, Wait(k, now, jiffies)))
  {
    assert Of(s, k).dstart != 0;
    assert t.timed + {k} == t.timed;
  }

  lemma NewWaitTracks(s: State, t: Truth, k: Kind, now: nat, jiffies: nat)
    requires Tracks(s, t) && Proper(t, Wait(k, now, jiffies)) && k !in t.timed
    ensures Tracks(WaitStart(s, k, now, jiffies), Really(t, Wait(k, now, jiffies)))
  {
    assert Of(s, k).dstart == 0;
    NewWaitTotal(s, t, k, now, jiffies);
    hide RightTotal, CountedTotal;
  }

  lemma NewWaitTotal(s: State, t: Truth, k: Kind, now: nat, jiffies: nat)
    requires Tracks(s, t) && Proper(t, Wait(k, now, jiffies)) && Of(s, k).dstart == 0
    ensures RightTotal(WaitStart(s, k, now, jiffies), Really(t, Wait(k, now, jiffies)))
  {
  }

  lemma WaitTracks(s: State, t: Truth, k: Kind, now: nat, jiffies: nat)
    requires Tracks(s, t) && Proper(t, Wait(k, now, jiffies))
    ensures Tracks(WaitStart(s, k, now, jiffies), Really(t, Wait(k, now, jiffies)))
  {
    hide Tracks, Really, WaitStart, Proper;
    if k in t.timed {
      TimedWaitTracks(s, t, k, now, jiffies);
    } else {
      NewWaitTracks(s, t, k, now, jiffies);
    }
  }

  lemma WakeTracks(s: State, t: Truth, now: nat, jiffies: nat)
    requires Tracks(s, t) && Proper(t, Wake(now, jiffies))
    ensures Tracks(Waking(s, now, jiffies), Really(t, Wake(now, jiffies)))
  {
  }

  /** The start of a wait is counted as the one lock awaited exactly if it neither follows a wake-up for
      that lock nor finds an earlier wait still being timed: the first counts the same lock again, the
      second counts nothing. */
  lemma WaitCountsOnceExactly(s: State, t: Truth, k: Kind, now: nat, jiffies: nat)
    requires Tracks(s, t) && Proper(t, Wait(k, now, jiffies))
    ensures Tracks(WaitStart(s, k, now, jiffies), t.(phase := Asleep(k), timed := t.timed + {k})) <==>
              !Miscounts(t, Wait(k, now, jiffies))
  {
    hide WaitStart;
    WaitTracks(s, t, k, now, jiffies);
  }

  /** On every bracketed run without a reset, from a clean record on: each depth is the number of locks
      held and awaited, more by the waits begun anew and less by those missed, and the starts and
      timers go with it. */
  lemma {:induction false} BracketedRunsTrack(events: seq<Event>)
    requires WellBracketed(events)
    ensures Tracks(Run(events), Truly(events))
  {
    hide Tracks, Step;
    if events == [] {
      ClearedTracksFree();
    } else {
      BracketedRunsTrack(events[..|events| - 1]);
      StepTracks(Run(events[..|events| - 1]), Truly(events[..|events| - 1]), events[|events| - 1]);
    }
  }

  /** So a depth is the number of locks held and awaited exactly when as many waits were begun anew as
      were missed. */
  lemma DepthIsTrueExactly(events: seq<Event>, k: Kind)
    requires WellBracketed(events)
    ensures Of(Run(events), k).depth == Deep(Truly(events), k) <==>
              At(Truly(events).again, k) == At(Truly(events).missed, k)
  {
    hide Run, Truly, Deep, Tracks;
    BracketedRunsTrack(events);
    RightDepth(Run(events), Truly(events), k);
  }

  lemma RightDepth(s: State, t: Truth, k: Kind)
    requires Tracks(s, t)
    ensures Of(s, k).depth == Deep(t, k) <==> At(t.again, k) == At(t.missed, k)
  {
    hide Deep;
    assert RightOf(s, t, k);
  }

  // ---------------------------------------------------------------- true all along

  /** Every depth is the number of locks held and awaited, and the total their sum. */
  predicate AllTrue(s: State, t: Truth) {
    && s.mutex.depth == Deep(t, Mutex) && s.rtmutex.depth == Deep(t, RtMutex) && s.rwsem.depth == Deep(t, RwSem)
    && s.total.depth == Deep(t, Mutex) + Deep(t, RtMutex) + Deep(t, RwSem)
  }

  lemma CleanIsTrue(s: State, t: Truth)
    requires Tracks(s, t) && Clean(t)
    ensures AllTrue(s, t)
  {
  }

  lemma CleanStep(t: Truth, e: Event)
    requires Clean(t) && Proper(t, e)
    ensures Clean(Really(t, e)) <==> !Miscounts(t, e)
  {
  }

  lemma MiscountShows(s: State, t: Truth, e: Event)
    requires Tracks(s, t) && Clean(t) && Proper(t, e) && Miscounts(t, e)
    ensures !AllTrue(Step(s, e), Really(t, e))
  {
    hide WaitStart;
    WaitTracks(s, t, e.k, e.now, e.jiffies);
    assert RightOf(Step(s, e), Really(t, e), e.k);
  }

  ghost predicate TrueAfter(events: seq<Event>, j: nat) {
    j <= |events| && WellBracketed(events[..j]) && AllTrue(Run(events[..j]), Truly(events[..j]))
  }

  ghost predicate MiscountsAt(events: seq<Event>, j: nat) {
    j < |events| && WellBracketed(events[..j]) && Miscounts(Truly(events[..j]), events[j])
  }

  ghost predicate TrueAlong(events: seq<Event>) {
    forall j :: 0 <= j <= |events| ==> TrueAfter(events, j)
  }

  ghost predicate NeverMiscounts(events: seq<Event>) {
    forall j :: 0 <= j < |events| ==> !MiscountsAt(events, j)
  }

  lemma TrueSplit(events: seq<Event>)
    requires events != []
    ensures TrueAlong(events) <==> TrueAlong(events[..|events| - 1]) && TrueAfter(events, |events|)
  {
    var front := events[..|events| - 1];
    forall j | 0 <= j <= |front|
      ensures TrueAfter(front, j) == TrueAfter(events, j)
    {
      assert front[..j] == events[..j];
    }
    hide TrueAfter;
  }

  lemma MiscountsSplit(events: seq<Event>)
    requires events != []
    ensures NeverMiscounts(events) <==>
              NeverMiscounts(events[..|events| - 1]) && !MiscountsAt(events, |events| - 1)
  {
    var front := events[..|events| - 1];
    forall j | 0 <= j < |front|
      ensures MiscountsAt(front, j) == MiscountsAt(events, j)
    {
      assert front[..j] == events[..j];
    }
    hide MiscountsAt;
  }

  lemma LastCounts(events: seq<Event>)
    requires WellBracketed(events) && events != [] && Clean(Truly(events[..|events| - 1]))
    ensures TrueAfter(events, |events|) <==> !MiscountsAt(events, |events| - 1)
    ensures Clean(Truly(events)) <==> !MiscountsAt(events, |events| - 1)
  {
    hide Tracks, Clean, AllTrue, Miscounts, Really, Step;
    var front, e := events[..|events| - 1], events[|events| - 1];
    assert events[..|events|] == events;
    BracketedRunsTrack(front);
    BracketedRunsTrack(events);
    CleanStep(Truly(front), e);
    if Miscounts(Truly(front), e) {
      MiscountShows(Run(front), Truly(front), e);
    } else {
      CleanIsTrue(Run(events), Truly(events));
    }
  }

  lemma NoneCount()
    ensures TrueAlong([]) && NeverMiscounts([]) && Clean(Truly([]))
  {
    hide Tracks, Clean, AllTrue;
    ClearedTracksFree();
    CleanIsTrue(CLEARED, FREE);
  }

  /** Over every bracketed run: after each step all depths are the locks held and awaited and the total
      is their sum, if and only if no wait was begun anew after its wake-up and none while an earlier
      one was still timed. */
  lemma {:induction false} DepthsTrueExactly(events: seq<Event>)
    requires WellBracketed(events)
    ensures TrueAlong(events) <==> NeverMiscounts(events)
    ensures NeverMiscounts(events) ==> Clean(Truly(events))
  {
    if events == [] {
      NoneCount();
    } else {
      hide TrueAlong, NeverMiscounts, TrueAfter, MiscountsAt, Clean, Truly, Tracks, Proper;
      DepthsTrueExactly(events[..|events| - 1]);
      TrueSplit(events);
      MiscountsSplit(events);
      if NeverMiscounts(events[..|events| - 1]) {
        LastCounts(events);
      }
    }
  }

  // ---------------------------------------------------------------- the records themselves

  /** One `lock_info`, with the accessors generated for every type. */
  class LockInfo {
    var depth: int
    var lockStart: nat
    var dstart: nat
    var dcounts: nat
    var duration: nat

    constructor ()
      ensures Value() == ZERO
    {
      depth, lockStart, dstart, dcounts, duration := 0, 0, 0, 0, 0;
    }

    function Value(): Info
      reads this
    {
      Info(depth, lockStart, dstart, dcounts, duration)
    }

    method Zero()
      modifies this
      ensures Value() == ZERO
    {
      depth, lockStart, dstart, dcounts, duration := 0, 0, 0, 0, 0;
    }

    method IncDepth()
      modifies this
      ensures Value() == Deeper(old(Value()))
    {
      depth := depth + 1;
    }

    method DecDepth()
      modifies this
      ensures Value() == old(Value()).(depth := if old(depth) - 1 < 0 then 0 else old(depth) - 1)
    {
      depth := depth - 1;
      if depth < 0 {
        depth := 0;
      }
    }
  }

  /** The lock records of a task. */
  class TaskLocks {
    const total: LockInfo
    const mutex: LockInfo
    const rtmutex: LockInfo
    const rwsem: LockInfo
    var ops: Option<Kind>

    ghost predicate Valid() {
      && total != mutex && total != rtmutex && total != rwsem
      && mutex != rtmutex && mutex != rwsem && rtmutex != rwsem
    }

    ghost function Value(): State
      reads this, total, mutex, rtmutex, rwsem
    {
      State(total.Value(), mutex.Value(), rtmutex.Value(), rwsem.Value(), ops)
    }

    constructor ()
      ensures Valid() && Value() == CLEARED
      ensures fresh(total) && fresh(mutex) && fresh(rtmutex) && fresh(rwsem)
    {
      total := new LockInfo();
      mutex := new LockInfo();
      rtmutex := new LockInfo();
      rwsem := new LockInfo();
      ops := None;
    }

    function Record(k: Kind): LockInfo {
      match k
      case Mutex => mutex
      case RtMutex => rtmutex
      case RwSem => rwsem
    }

    /** Writing one record and the total writes exactly that part of the state. */
    twostate lemma OneRecord(k: Kind)
      requires Valid()
      requires k != Mutex ==> mutex.Value() == old(mutex.Value())
      requires k != RtMutex ==> rtmutex.Value() == old(rtmutex.Value())
      requires k != RwSem ==> rwsem.Value() == old(rwsem.Value())
      ensures Value() == With(old(Value()), k, Record(k).Value()).(total := total.Value(), ops := ops)
      ensures Of(old(Value()), k) == old(Record(k).Value())
    {
    }

    method RecordLockStarttime(k: Kind, settime: nat)
      requires Valid()
      modifies this, total, Record(k)
      ensures Value() == if settime != 0 then Acquire(old(Value()), k, settime) else Release(old(Value()), k)
    {
      var info := Record(k);
      if settime != 0 {
        var exitDstate := ops.Some?;
        if exitDstate || info.depth == 0 {
          info.lockStart := settime;
        }
        if exitDstate || total.depth == 0 {
          total.lockStart := settime;
        }
        if exitDstate {
          ops := None;
        } else {
          info.IncDepth();
          total.IncDepth();
        }
      } else {
        info.DecDepth();
        if info.depth == 0 {
          info.lockStart := 0;
        }
        total.DecDepth();
        if total.depth == 0 {
          total.lockStart := 0;
        }
      }
      OneRecord(k);
    }

    method LockWaitStart(k: Kind, now: nat, jiffies: nat)
      requires Valid()
      modifies this, total, Record(k)
      ensures Value() == WaitStart(old(Value()), k, now, jiffies)
    {
      var info := Record(k);
      if info.dstart == 0 {
        info.dstart := now;
        if info.depth == 0 {
          info.lockStart := jiffies;
        }
        info.IncDepth();
        if total.depth == 0 {
          total.lockStart := jiffies;
        }
        total.IncDepth();
      }
      ops := Some(k);
      OneRecord(k);
    }

    method SchedWakingDstateEnd(now: nat, jiffies: nat)
      requires Valid()
      modifies this, total, mutex, rtmutex, rwsem
      ensures Value() == Waking(old(Value()), now, jiffies)
    {
      if ops.None? {
        return;
      }
      var k := ops.value;
      var info := Record(k);
      var dstart := info.dstart;
      if dstart == 0 {
        return;
      }
      var durationNs := (now - dstart) % U64;
      info.dstart := 0;
      if durationNs / NS_PER_US < OPT_SPIN_THRESHOLD_US {
        OneRecord(k);
        return;
      }
      info.lockStart := jiffies;
      total.lockStart := jiffies;
      info.dcounts := info.dcounts + 1;
      info.duration := info.duration + durationNs;
      total.dcounts := total.dcounts + 1;
      OneRecord(k);
    }

    /** The `memset` that forgets everything about the task. */
    method Clear()
      modifies this, total, mutex, rtmutex, rwsem
      ensures Value() == CLEARED
    {
      total.Zero();
      mutex.Zero();
      rtmutex.Zero();
      rwsem.Zero();
      ops := None;
    }

    method TaskInlockProtect(jiffies: nat, running: nat, considerRunning: bool) returns (ret: bool)
      requires Valid()
      modifies this, total, mutex, rtmutex, rwsem
      ensures (ret, Value()) == InlockProtect(old(Value()), jiffies, running, considerRunning)
    {
      if total.depth == 0 {
        return false;
      }
      var lockStart := total.lockStart;
      var timeout;
      if considerRunning {
        timeout := lockStart != 0 && jiffies > lockStart && running > LOCK_PROTECT_TIMEOUT;
      } else {
        timeout := lockStart != 0 && jiffies > lockStart;
      }
      if timeout {
        Clear();
        return false;
      }
      return true;
    }

    /** `sched_switch_prev`: only a preempted or uninterruptible task keeps its records. */
    method SchedSwitchPrev(running: bool, uninterruptible: bool)
      requires Valid()
      modifies this, total, mutex, rtmutex, rwsem
      ensures Value() == if running || uninterruptible then old(Value()) else CLEARED
    {
      if running || uninterruptible {
        return;
      }
      Clear();
    }
  }
}
