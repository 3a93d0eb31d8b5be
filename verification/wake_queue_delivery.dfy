/** What the wake queue protocol delivers: every claim wakes its task exactly once, and a drain that
    gets the steps it needs pays every debt. */
module WakeQueueDelivery {
  import opened WakeQueueProtocol

  // ---------------------------------------------------------------- one wake-up per claim

  /** Whether this step is a claim of `t` that succeeds. */
  predicate Claims(s: State, a: Action, t: nat)
    requires Enabled(s, a)
  {
    a.Claim? && s.cpus[a.c].pc.t == t && Load(s.next, t) == Null
  }

  /** The successful claims of `t` along a run. */
  function ClaimsOf(s: State, actions: seq<Action>, t: nat): nat
    requires IsRun(s, actions)
    decreases |actions|
  {
    if actions == [] then 0
    else (if Claims(s, actions[0], t) then 1 else 0) + ClaimsOf(Apply(s, actions[0]), actions[1..], t)
  }

  function WakesNow(cpu: Cpu, t: nat): nat {
    if cpu.pc.Waking? && cpu.pc.t == t then 1 else 0
  }

  /** How many CPUs have reset `t` and are about to wake it. */
  function WakersOf(cpus: seq<Cpu>, t: nat): nat {
    if cpus == [] then 0 else WakesNow(cpus[0], t) + WakersOf(cpus[1..], t)
  }

  /** Whether `t` stands claimed, which its own `wake_q.next` says. */
  function Claimed(s: State, t: nat): nat {
    if Load(s.next, t) == Null then 0 else 1
  }

  /** Wake-ups of `t` delivered or owed. */
  function DeliveredOrOwed(s: State, t: nat): nat
    requires t < |s.wakes|
  {
    s.wakes[t] + WakersOf(s.cpus, t) + Claimed(s, t)
  }

  lemma {:induction false} WakersUpdate(cpus: seq<Cpu>, c: nat, cpu: Cpu, t: nat)
    requires c < |cpus|
    ensures WakersOf(cpus[c := cpu], t) == WakersOf(cpus, t) - WakesNow(cpus[c], t) + WakesNow(cpu, t)
  {
    hide WakesNow;
    var after := cpus[c := cpu];
    if c == 0 {
      assert after[1..] == cpus[1..];
    } else {
      assert after[1..] == cpus[1..][c - 1 := cpu];
      WakersUpdate(cpus[1..], c - 1, cpu, t);
    }
  }

  lemma {:induction false} NoWakers(cpus: seq<Cpu>, t: nat)
    requires forall c :: 0 <= c < |cpus| ==> !cpus[c].pc.Waking?
    ensures WakersOf(cpus, t) == 0
  {
    if cpus != [] {
      NoWakers(cpus[1..], t);
    }
  }

  /** What a step adds to one CPU's wake-ups, to those delivered and to the claim mark of `t`. */
  predicate Settled(s: State, a: Action, t: nat)
    requires Enabled(s, a) && !ByOthers(a) && t < |s.wakes|
  {
    var s' := Apply(s, a);
    && |s'.wakes| == |s.wakes| && |s'.cpus| == |s.cpus|
    && s'.wakes[t] + WakesNow(s'.cpus[a.c], t) + Claimed(s', t)
       == s.wakes[t] + WakesNow(s.cpus[a.c], t) + Claimed(s, t) + (if Claims(s, a, t) then 1 else 0)
  }

  lemma LinkSettles(s: State, c: nat, t: nat)
    requires Inv(s) && c < |s.cpus| && s.cpus[c].pc.Linking? && t < |s.wakes|
    ensures Settled(s, LinkIn(c), t)
  {
    hide OwnersOk, CountsOk;
    ShapeAt(s, c);
    var m := s.cpus[c].members;
    if m != [] {
      LastInRange(s.next, m);
    }
  }

  lemma ResetSettles(s: State, c: nat, t: nat)
    requires Inv(s) && c < |s.cpus| && s.cpus[c].pc.Resetting? && t < |s.wakes|
    ensures Settled(s, Reset(c), t)
  {
    hide OwnersOk, CountsOk;
    ShapeAt(s, c);
  }

  lemma ClaimSettles(s: State, c: nat, t: nat)
    requires SizesOk(s) && c < |s.cpus| && s.cpus[c].pc.Claiming? && t < |s.wakes|
    ensures Settled(s, Claim(c), t)
  {
  }

  lemma WakeSettles(s: State, c: nat, t: nat)
    requires SizesOk(s) && c < |s.cpus| && s.cpus[c].pc.Waking? && t < |s.wakes|
    ensures Settled(s, Wake(c), t)
  {
  }

  /** The steps that touch neither `next` nor a wake-up. */
  lemma OtherStepSettles(s: State, a: Action, t: nat)
    requires Enabled(s, a) && !ByOthers(a) && t < |s.wakes|
    requires !a.Claim? && !a.LinkIn? && !a.Reset? && !a.Wake?
    ensures Settled(s, a, t)
  {
    var s' := Apply(s, a);
    assert s'.next == s.next && s'.wakes == s.wakes;
    assert WakesNow(s.cpus[a.c], t) == 0 && WakesNow(s'.cpus[a.c], t) == 0;
  }

  lemma StepSettles(s: State, a: Action, t: nat)
    requires Inv(s) && Enabled(s, a) && !ByOthers(a) && t < |s.wakes|
    ensures Settled(s, a, t)
  {
    hide ShapesOk, OwnersOk, CountsOk, Settled;
    match a
    case Claim(c) => ClaimSettles(s, c, t);
    case LinkIn(c) => LinkSettles(s, c, t);
    case Reset(c) => ResetSettles(s, c, t);
    case Wake(c) => WakeSettles(s, c, t);
    case _ => OtherStepSettles(s, a, t);
  }

  /** Nothing but a successful claim adds a wake-up to those delivered or owed, and no step loses one. */
  lemma StepAccounts(s: State, a: Action, t: nat)
    requires Inv(s) && Enabled(s, a) && t < |s.wakes|
    ensures |Apply(s, a).wakes| == |s.wakes|
    ensures DeliveredOrOwed(Apply(s, a), t) == DeliveredOrOwed(s, t) + (if Claims(s, a, t) then 1 else 0)
  {
    if !ByOthers(a) {
      StepSettles(s, a, t);
      OneCpuMoves(s, a);
      WakersUpdate(s.cpus, a.c, Apply(s, a).cpus[a.c], t);
      hide Inv, Apply, Enabled;
    } else {
      hide Inv;
    }
  }

  lemma {:induction false} RunAccounts(s: State, actions: seq<Action>, t: nat)
    requires Inv(s) && IsRun(s, actions) && t < |s.wakes|
    ensures |After(s, actions).wakes| == |s.wakes|
    ensures DeliveredOrOwed(After(s, actions), t) == DeliveredOrOwed(s, t) + ClaimsOf(s, actions, t)
    decreases |actions|
  {
    hide Inv, Enabled, Apply, DeliveredOrOwed, Claims;
    if actions != [] {
      StepKeepsInv(s, actions[0]);
      StepAccounts(s, actions[0], t);
      RunAccounts(Apply(s, actions[0]), actions[1..], t);
    }
  }

  /** Exactly once. In every run and for every task, the wake-ups delivered are the claims that
      succeeded, less one if the task still stands claimed and one for each CPU that has reset it and
      not woken it yet. So where nobody has it queued or in hand, each claim has woken it once. */
  lemma EachClaimWakesOnce(init: State, actions: seq<Action>, t: nat)
    requires IsInit(init) && IsRun(init, actions) && t < |init.wakes|
    ensures var end := After(init, actions);
            && t < |end.wakes|
            && end.wakes[t] - init.wakes[t] + WakersOf(end.cpus, t) + Claimed(end, t)
               == ClaimsOf(init, actions, t)
  {
    InitHolds(init);
    NoWakers(init.cpus, t);
    RunAccounts(init, actions, t);
  }

  // ---------------------------------------------------------------- debts are paid

  /** The steps CPU `c` itself takes. */
  function OwnSteps(actions: seq<Action>, c: nat): nat {
    if actions == [] then 0
    else (if !ByOthers(actions[0]) && actions[0].c == c then 1 else 0) + OwnSteps(actions[1..], c)
  }

  lemma OnlyOwnStep(s: State, c: nat, a: Action)
    requires c < |s.cpus| && Draining(s.cpus[c].pc) && Enabled(s, a) && !ByOthers(a) && a.c == c
    ensures a == OwnStep(s.cpus[c], c)
  {
  }

  lemma StepsToGo(s: State, c: nat)
    requires Inv(s) && c < |s.cpus| && Draining(s.cpus[c].pc)
    ensures StepsLeft(s.cpus[c]) > 0
  {
    hide Chain, OwnersOk, CountsOk;
    ShapeAt(s, c);
  }

  /** One step of a run in which CPU `c` drains: the debt is paid, or `c` drains on with as many steps
      to go as it had, less its own. */
  lemma DrainGoesOn(s: State, a: Action, c: nat, t: nat)
    requires Inv(s) && c < |s.cpus| && Draining(s.cpus[c].pc) && Owes(s, c, t) && t < |s.wakes|
    requires Enabled(s, a)
    ensures var s' := Apply(s, a);
            && t < |s'.wakes| && s'.wakes[t] >= s.wakes[t]
            && (s'.wakes[t] > s.wakes[t]
                || (&& c < |s'.cpus| && Draining(s'.cpus[c].pc) && Owes(s', c, t)
                    && StepsLeft(s.cpus[c]) == StepsLeft(s'.cpus[c]) + OwnSteps([a], c)))
  {
    hide Inv, Apply, Enabled, Owes, StepsLeft;
    DebtPersists(s, a, c, t);
    StepKeepsInv(s, a);
    NoDebtWhenDrained(Apply(s, a), c, t);
    if a == OwnStep(s.cpus[c], c) {
      OneCpuMoves(s, a);
      DrainSteps(s, c);
    } else {
      DrainUndisturbed(s, c, a);
      if !ByOthers(a) && a.c == c {
        OnlyOwnStep(s, c, a);
      }
    }
  }

  /** Whatever everybody else does in between, a CPU that drains and owes a wake-up has delivered it by
      the time it has taken the steps that were left. */
  lemma {:induction false} DrainDelivers(s: State, actions: seq<Action>, c: nat, t: nat)
    requires Inv(s) && IsRun(s, actions) && t < |s.wakes|
    requires c < |s.cpus| && Draining(s.cpus[c].pc) && Owes(s, c, t)
    requires OwnSteps(actions, c) >= StepsLeft(s.cpus[c])
    ensures var end := After(s, actions);
            t < |end.wakes| && end.wakes[t] > s.wakes[t]
    decreases |actions|
  {
    hide Inv, Enabled, Apply, Owes, StepsLeft, ByOthers;
    StepsToGo(s, c);
    if actions != [] {
      var s1 := Apply(s, actions[0]);
      StepKeepsInv(s, actions[0]);
      DrainGoesOn(s, actions[0], c, t);
      if s1.wakes[t] > s.wakes[t] {
        WakesNeverDrop(s1, actions[1..], t);
      } else {
        DrainDelivers(s1, actions[1..], c, t);
      }
    }
  }

  // ---------------------------------------------------------------- who gets the references

  function If(c: bool, n: int): int {
    if c then n else 0
  }

  /** What a step does to the count of `t`: `wake_q_add` takes a reference on admission, `wake_q_add_safe`
      puts one on refusal, the drain puts one after the wake-up, and outsiders get and put their own. */
  function CountChange(s: State, a: Action, t: nat): int
    requires Enabled(s, a)
  {
    match a
    case Count(c) => If(s.cpus[c].pc.t == t && !s.cpus[c].pc.safe, 1)
    case Refuse(c) => If(s.cpus[c].pc.t == t && s.cpus[c].pc.safe, -1)
    case Put(c) => If(s.cpus[c].pc.t == t, -1)
    case OtherGet(u) => If(u == t, 1)
    case OtherPut(u) => If(u == t, -1)
    case _ => 0
  }

  /** What it does to the references held outside: a call has its caller's in hand, and gives it back
      unless it was a safe one. */
  function HeldChange(s: State, a: Action, t: nat): int
    requires Enabled(s, a)
  {
    match a
    case StartAdd(_, u, _) => If(u == t, -1)
    case Count(c) => If(s.cpus[c].pc.t == t && !s.cpus[c].pc.safe, 1)
    case Refuse(c) => If(s.cpus[c].pc.t == t && !s.cpus[c].pc.safe, 1)
    case OtherGet(u) => If(u == t, 1)
    case OtherPut(u) => If(u == t, -1)
    case _ => 0
  }

  lemma StepReferences(s: State, a: Action, t: nat)
    requires SizesOk(s) && Enabled(s, a) && t < |s.refcnt|
    ensures var s' := Apply(s, a);
            && |s'.refcnt| == |s.refcnt| && |s'.held| == |s.held| && |s'.wakes| == |s.wakes|
            && s'.refcnt[t] == s.refcnt[t] + CountChange(s, a, t)
            && s'.held[t] == s.held[t] + HeldChange(s, a, t)
            && s'.wakes[t] == s.wakes[t] + If(a.Wake? && s.cpus[a.c].pc.t == t, 1)
  {
  }
}
