/** The wake queue under any number of CPUs: each CPU fills and drains its own queue, all of them
    share the tasks, and every memory access of `03_wake_q_simulation.c` is a step of its own. */
module WakeQueueProtocol {

  /** The three states of a task's `wake_q.next`. */
  datatype Link = Null | Tail | To(task: nat)

  /** What `lastp` points at: the head's `first`, or the `next` of a queued task. */
  datatype Slot = First | NextOf(task: nat)

  /** Where a CPU is: between calls, inside an add, inside the drain, or done with its queue. */
  datatype Pc =
    | Idle
    | Claiming(t: nat, safe: bool)
    | Linking(t: nat, safe: bool)
    | Moving(t: nat, safe: bool)
    | Counting(t: nat, safe: bool)
    | Refused(t: nat, safe: bool)
    | Testing(node: Link)
    | Resetting(t: nat, rest: Link)
    | Waking(t: nat, rest: Link)
    | Putting(t: nat, rest: Link)
    | Drained

  /** A queue and its CPU. `members` is bookkeeping: the tasks linked and not yet reset. */
  datatype Cpu = Cpu(pc: Pc, first: Link, lastp: Slot, members: seq<nat>)

  /** Shared memory. `held` counts the references other parties own, `wakes` the wake-ups
      delivered; `owner` is bookkeeping: the CPU whose claim stands, or -1. */
  datatype State = State(
    next: seq<Link>,
    refcnt: seq<int>,
    held: seq<nat>,
    wakes: seq<nat>,
    owner: seq<int>,
    cpus: seq<Cpu>)

  datatype Action =
    | StartAdd(c: nat, t: nat, safe: bool)
    | Claim(c: nat)
    | LinkIn(c: nat)
    | MoveLastp(c: nat)
    | Count(c: nat)
    | Refuse(c: nat)
    | StartDrain(c: nat)
    | Test(c: nat)
    | Reset(c: nat)
    | Wake(c: nat)
    | Put(c: nat)
    | Reinit(c: nat)
    | OtherGet(t: nat)
    | OtherPut(t: nat)

  predicate Enabled(s: State, a: Action) {
    match a
    case OtherGet(t) => t < |s.held| && s.held[t] > 0
    case OtherPut(t) => t < |s.held| && s.held[t] > 0
    case StartAdd(c, t, _) => c < |s.cpus| && s.cpus[c].pc.Idle? && t < |s.held| && s.held[t] > 0
    case Claim(c) => c < |s.cpus| && s.cpus[c].pc.Claiming?
    case LinkIn(c) => c < |s.cpus| && s.cpus[c].pc.Linking?
    case MoveLastp(c) => c < |s.cpus| && s.cpus[c].pc.Moving?
    case Count(c) => c < |s.cpus| && s.cpus[c].pc.Counting?
    case Refuse(c) => c < |s.cpus| && s.cpus[c].pc.Refused?
    case StartDrain(c) => c < |s.cpus| && s.cpus[c].pc.Idle?
    case Test(c) => c < |s.cpus| && s.cpus[c].pc.Testing? && !s.cpus[c].pc.node.Null?
    case Reset(c) => c < |s.cpus| && s.cpus[c].pc.Resetting?
    case Wake(c) => c < |s.cpus| && s.cpus[c].pc.Waking?
    case Put(c) => c < |s.cpus| && s.cpus[c].pc.Putting?
    case Reinit(c) => c < |s.cpus| && s.cpus[c].pc.Drained?
  }

  predicate ByOthers(a: Action) {
    a.OtherGet? || a.OtherPut?
  }

  function Store<T>(s: seq<T>, i: nat, v: T): seq<T> {
    if i < |s| then s[i := v] else s
  }

  function Bump(s: seq<int>, i: nat, d: int): seq<int> {
    if i < |s| then s[i := s[i] + d] else s
  }

  function Load(s: seq<Link>, i: nat): Link {
    if i < |s| then s[i] else Null
  }

  function DropHead(m: seq<nat>): seq<nat> {
    if m == [] then [] else m[1..]
  }

  function OnCpu(s: State, c: nat, cpu: Cpu): State
    requires c < |s.cpus|
  {
    s.(cpus := s.cpus[c := cpu])
  }

  /** The caller's own reference keeps the task alive during the call. */
  function DoStartAdd(s: State, c: nat, t: nat, safe: bool): State
    requires c < |s.cpus| && t < |s.held| && s.held[t] > 0
  {
    OnCpu(s, c, s.cpus[c].(pc := Claiming(t, safe))).(held := s.held[t := s.held[t] - 1])
  }

  /** `cmpxchg(&node->next, NULL, WAKE_Q_TAIL)`. */
  function DoClaim(s: State, c: nat): State
    requires c < |s.cpus| && s.cpus[c].pc.Claiming?
  {
    var cpu := s.cpus[c];
    var t, safe := cpu.pc.t, cpu.pc.safe;
    if Load(s.next, t) == Null then
      OnCpu(s, c, cpu.(pc := Linking(t, safe)))
        .(next := Store(s.next, t, Tail), owner := Store(s.owner, t, c))
    else OnCpu(s, c, cpu.(pc := Refused(t, safe)))
  }

  /** `*head->lastp = node`. */
  function DoLink(s: State, c: nat): State
    requires c < |s.cpus| && s.cpus[c].pc.Linking?
  {
    var cpu := s.cpus[c];
    var t := cpu.pc.t;
    var linked := cpu.(pc := Moving(t, cpu.pc.safe), members := cpu.members + [t]);
    match cpu.lastp
    case First => OnCpu(s, c, linked.(first := To(t)))
    case NextOf(u) => OnCpu(s, c, linked).(next := Store(s.next, u, To(t)))
  }

  /** `head->lastp = &node->next`. */
  function DoMove(s: State, c: nat): State
    requires c < |s.cpus| && s.cpus[c].pc.Moving?
  {
    var cpu := s.cpus[c];
    OnCpu(s, c, cpu.(pc := Counting(cpu.pc.t, cpu.pc.safe), lastp := NextOf(cpu.pc.t)))
  }

  /** `wake_q_add` takes a reference of its own, `wake_q_add_safe` passes the caller's on. */
  function DoCount(s: State, c: nat): State
    requires c < |s.cpus| && s.cpus[c].pc.Counting?
  {
    var pc := s.cpus[c].pc;
    var done := OnCpu(s, c, s.cpus[c].(pc := Idle));
    if pc.safe then done
    else done.(refcnt := Bump(s.refcnt, pc.t, 1), held := Return(s.held, pc.t))
  }

  /** A refused `wake_q_add_safe` puts the caller's reference. */
  function DoRefuse(s: State, c: nat): State
    requires c < |s.cpus| && s.cpus[c].pc.Refused?
  {
    var pc := s.cpus[c].pc;
    var done := OnCpu(s, c, s.cpus[c].(pc := Idle));
    if pc.safe then done.(refcnt := Bump(s.refcnt, pc.t, -1)) else done.(held := Return(s.held, pc.t))
  }

  function DoStartDrain(s: State, c: nat): State
    requires c < |s.cpus|
  {
    OnCpu(s, c, s.cpus[c].(pc := Testing(s.cpus[c].first)))
  }

  /** The loop test and `node = node->next`. */
  function DoTest(s: State, c: nat): State
    requires c < |s.cpus| && s.cpus[c].pc.Testing? && !s.cpus[c].pc.node.Null?
  {
    var node := s.cpus[c].pc.node;
    OnCpu(s, c, s.cpus[c].(pc := if node.Tail? then Drained
                                 else Resetting(node.task, Load(s.next, node.task))))
  }

  /** `WRITE_ONCE(task->wake_q.next, NULL)`. */
  function DoReset(s: State, c: nat): State
    requires c < |s.cpus| && s.cpus[c].pc.Resetting?
  {
    var cpu := s.cpus[c];
    var t := cpu.pc.t;
    OnCpu(s, c, cpu.(pc := Waking(t, cpu.pc.rest), members := DropHead(cpu.members)))
      .(next := Store(s.next, t, Null), owner := Store(s.owner, t, -1))
  }

  function DoWake(s: State, c: nat): State
    requires c < |s.cpus| && s.cpus[c].pc.Waking?
  {
    var pc := s.cpus[c].pc;
    OnCpu(s, c, s.cpus[c].(pc := Putting(pc.t, pc.rest))).(wakes := Return(s.wakes, pc.t))
  }

  function DoPut(s: State, c: nat): State
    requires c < |s.cpus| && s.cpus[c].pc.Putting?
  {
    var pc := s.cpus[c].pc;
    OnCpu(s, c, s.cpus[c].(pc := Testing(pc.rest))).(refcnt := Bump(s.refcnt, pc.t, -1))
  }

  function DoReinit(s: State, c: nat): State
    requires c < |s.cpus|
  {
    OnCpu(s, c, s.cpus[c].(pc := Idle, first := Tail, lastp := First))
  }

  function Return(s: seq<nat>, i: nat): seq<nat> {
    if i < |s| then s[i := s[i] + 1] else s
  }

  /** One memory access, or one get or put by somebody outside. */
  function Apply(s: State, a: Action): State
    requires Enabled(s, a)
  {
    match a
    case OtherGet(t) => s.(refcnt := Bump(s.refcnt, t, 1), held := s.held[t := s.held[t] + 1])
    case OtherPut(t) => s.(refcnt := Bump(s.refcnt, t, -1), held := s.held[t := s.held[t] - 1])
    case StartAdd(c, t, safe) => DoStartAdd(s, c, t, safe)
    case Claim(c) => DoClaim(s, c)
    case LinkIn(c) => DoLink(s, c)
    case MoveLastp(c) => DoMove(s, c)
    case Count(c) => DoCount(s, c)
    case Refuse(c) => DoRefuse(s, c)
    case StartDrain(c) => DoStartDrain(s, c)
    case Test(c) => DoTest(s, c)
    case Reset(c) => DoReset(s, c)
    case Wake(c) => DoWake(s, c)
    case Put(c) => DoPut(s, c)
    case Reinit(c) => DoReinit(s, c)
  }

  // ---------------------------------------------------------------- the invariant

  function HeadLink(m: seq<nat>): Link {
    if m == [] then Tail else To(m[0])
  }

  function EndSlot(m: seq<nat>): Slot {
    if m == [] then First else NextOf(m[|m| - 1])
  }

  function Succ(m: seq<nat>, i: nat): Link {
    if i + 1 < |m| then To(m[i + 1]) else Tail
  }

  /** `m` is linked in order and ends in the sentinel. */
  ghost predicate Chain(next: seq<Link>, m: seq<nat>) {
    && (forall i :: 0 <= i < |m| ==> m[i] < |next|)
    && (forall i :: 0 <= i < |m| ==> next[m[i]] == Succ(m, i))
    && (forall i, j :: 0 <= i < j < |m| ==> m[i] != m[j])
  }

  predicate Owns(cpu: Cpu, t: nat) {
    t in cpu.members || (cpu.pc.Linking? && cpu.pc.t == t)
  }

  /** A CPU's queue is well formed at each point of its program. */
  ghost predicate CpuOk(next: seq<Link>, cpu: Cpu) {
    var m := cpu.members;
    match cpu.pc
    case Idle => Chain(next, m) && Filed(cpu)
    case Claiming(t, _) => Chain(next, m) && Filed(cpu) && t < |next|
    case Linking(t, _) => Chain(next, m) && Filed(cpu) && t < |next| && t !in m && next[t] == Tail
    case Moving(t, _) =>
      && m != [] && m[|m| - 1] == t && Chain(next, m)
      && cpu.first == HeadLink(m) && cpu.lastp == EndSlot(m[..|m| - 1])
    case Counting(t, _) => Chain(next, m) && Filed(cpu) && m != [] && m[|m| - 1] == t
    case Refused(t, _) => Chain(next, m) && Filed(cpu) && t < |next|
    case Testing(node) => Chain(next, m) && node == HeadLink(m)
    case Resetting(t, rest) => Chain(next, m) && m != [] && m[0] == t && rest == next[t]
    case Waking(t, rest) => Chain(next, m) && rest == HeadLink(m) && t < |next|
    case Putting(t, rest) => Chain(next, m) && rest == HeadLink(m) && t < |next|
    case Drained => m == []
  }

  /** `first` and `lastp` of a queue that is being filled. */
  predicate Filed(cpu: Cpu) {
    cpu.first == HeadLink(cpu.members) && cpu.lastp == EndSlot(cpu.members)
  }

  ghost predicate ShapesOk(s: State) {
    forall c :: 0 <= c < |s.cpus| ==> CpuOk(s.next, s.cpus[c])
  }

  /** `next` is set exactly on the tasks some CPU owns, and no task has two owners. */
  ghost predicate OwnersOk(s: State)
    requires SizesOk(s)
  {
    && (forall c, t: nat :: 0 <= c < |s.cpus| && t < |s.next| ==>
          (Owns(s.cpus[c], t) <==> s.owner[t] == c))
    && (forall t :: 0 <= t < |s.next| ==>
          && -1 <= s.owner[t] < |s.cpus|
          && (s.next[t] == Null <==> s.owner[t] == -1))
  }

  /** References a CPU holds on `t`: one per queued task, one for the task it is handling. */
  function RefsOf(cpu: Cpu, t: nat): nat {
    (if t in cpu.members && !((cpu.pc.Moving? || cpu.pc.Counting?) && cpu.pc.t == t) then 1 else 0)
    + (if Handles(cpu.pc) && cpu.pc.t == t then 1 else 0)
  }

  predicate Handles(pc: Pc) {
    pc.Claiming? || pc.Linking? || pc.Moving? || pc.Counting? || pc.Refused? || pc.Waking? || pc.Putting?
  }

  function SumRefs(cpus: seq<Cpu>, t: nat): nat {
    if cpus == [] then 0 else RefsOf(cpus[0], t) + SumRefs(cpus[1..], t)
  }

  ghost predicate CountsOk(s: State)
    requires SizesOk(s)
  {
    forall t :: 0 <= t < |s.next| ==> s.refcnt[t] == s.held[t] + SumRefs(s.cpus, t)
  }

  predicate SizesOk(s: State) {
    |s.next| == |s.refcnt| == |s.held| == |s.wakes| == |s.owner|
  }

  ghost predicate Inv(s: State) {
    SizesOk(s) && ShapesOk(s) && OwnersOk(s) && CountsOk(s)
  }

  // ---------------------------------------------------------------- one step

  lemma {:induction false} SumRefsUpdate(cpus: seq<Cpu>, c: nat, cpu: Cpu, t: nat)
    requires c < |cpus|
    ensures SumRefs(cpus[c := cpu], t) == SumRefs(cpus, t) - RefsOf(cpus[c], t) + RefsOf(cpu, t)
  {
    hide RefsOf;
    var after := cpus[c := cpu];
    if c == 0 {
      assert after[1..] == cpus[1..];
    } else {
      assert after[1..] == cpus[1..][c - 1 := cpu];
      SumRefsUpdate(cpus[1..], c - 1, cpu, t);
    }
  }

  lemma {:induction false} SumRefsAtLeast(cpus: seq<Cpu>, c: nat, t: nat)
    requires c < |cpus|
    ensures SumRefs(cpus, t) >= RefsOf(cpus[c], t)
  {
    if c > 0 {
      SumRefsAtLeast(cpus[1..], c - 1, t);
    }
  }

  /** A step changes `next` only where it owns the task before or after, so the other queues keep
      their shape. */
  lemma OthersKeepShape(s: State, next': seq<Link>, c: nat)
    requires SizesOk(s) && ShapesOk(s) && OwnersOk(s) && c < |s.cpus| && |s.next| == |next'|
    requires forall t :: 0 <= t < |s.next| && s.owner[t] >= 0 && s.owner[t] != c ==>
               next'[t] == s.next[t]
    ensures forall d :: 0 <= d < |s.cpus| && d != c ==> CpuOk(next', s.cpus[d])
  {
    forall d | 0 <= d < |s.cpus| && d != c
      ensures CpuOk(next', s.cpus[d])
    {
      var cpu := s.cpus[d];
      assert CpuOk(s.next, cpu);
      forall t: nat | t < |s.next| && Owns(cpu, t)
        ensures next'[t] == s.next[t]
      {
        assert s.owner[t] == d;
      }
      SameShape(s.next, next', cpu);
    }
  }

  lemma SameShape(next: seq<Link>, next': seq<Link>, cpu: Cpu)
    requires |next| == |next'| && CpuOk(next, cpu)
    requires forall t: nat :: t < |next| && Owns(cpu, t) ==> next'[t] == next[t]
    ensures CpuOk(next', cpu)
  {
    if !cpu.pc.Drained? {
      assert Chain(next, cpu.members);
      forall i | 0 <= i < |cpu.members|
        ensures next'[cpu.members[i]] == Succ(cpu.members, i)
      {
        assert Owns(cpu, cpu.members[i]);
      }
    }
  }

  lemma ChainGrows(next: seq<Link>, m: seq<nat>, t: nat)
    requires Chain(next, m) && t < |next| && t !in m && next[t] == Tail
    ensures Chain(Linked(next, m, t), m + [t])
  {
  }

  lemma ChainShrinks(next: seq<Link>, m: seq<nat>)
    requires Chain(next, m) && m != []
    ensures m[0] !in m[1..]
    ensures Chain(next[m[0] := Null], m[1..])
    ensures next[m[0]] == HeadLink(m[1..])
  {
  }

  /** Nothing but CPU `c`'s own record moves, and it keeps the same tasks. */
  predicate Local(s: State, s': State, c: nat)
    requires c < |s.cpus|
  {
    && s'.next == s.next && s'.owner == s.owner
    && |s'.cpus| == |s.cpus| && s'.cpus == s.cpus[c := s'.cpus[c]]
    && s'.cpus[c].members == s.cpus[c].members
    && (s'.cpus[c].pc.Linking? || s.cpus[c].pc.Linking? ==> s'.cpus[c].pc == s.cpus[c].pc)
  }

  lemma LocalStepKeepsQueues(s: State, s': State, c: nat)
    requires SizesOk(s) && SizesOk(s') && ShapesOk(s) && OwnersOk(s) && c < |s.cpus|
    requires |s'.cpus| == |s.cpus| && Local(s, s', c)
    requires CpuOk(s.next, s'.cpus[c])
    ensures ShapesOk(s') && OwnersOk(s')
  {
  }

  /** The one CPU changes hands with a single task; everyone else keeps what it owned. */
  lemma OwnerChange(s: State, s': State, c: nat, t: nat)
    requires SizesOk(s) && SizesOk(s') && OwnersOk(s) && c < |s.cpus| && t < |s.next| == |s'.next|
    requires |s'.cpus| == |s.cpus| && s'.cpus == s.cpus[c := s'.cpus[c]]
    requires forall u: nat :: u != t ==> (Owns(s'.cpus[c], u) <==> Owns(s.cpus[c], u))
    requires s.owner[t] == c || s.owner[t] == -1
    requires s'.owner == s.owner[t := if Owns(s'.cpus[c], t) then c else -1]
    requires forall u :: 0 <= u < |s.next| && u != t ==> (s'.next[u] == Null <==> s.next[u] == Null)
    requires s'.next[t] == Null <==> !Owns(s'.cpus[c], t)
    ensures OwnersOk(s')
  {
  }

  lemma ClaimKeepsQueues(s: State, c: nat)
    requires SizesOk(s) && ShapesOk(s) && OwnersOk(s) && c < |s.cpus|
    requires s.cpus[c].pc.Claiming?
    ensures SizesOk(DoClaim(s, c)) && ShapesOk(DoClaim(s, c)) && OwnersOk(DoClaim(s, c))
  {
    var cpu := s.cpus[c];
    var t := cpu.pc.t;
    var s' := DoClaim(s, c);
    assert CpuOk(s.next, cpu);
    if s.next[t] == Null {
      assert s.owner[t] == -1;
      assert !Owns(cpu, t);
      OthersKeepShape(s, s'.next, c);
      SameShape(s.next, s'.next, cpu);
      OwnerChange(s, s', c, t);
    } else {
      LocalStepKeepsQueues(s, s', c);
    }
  }

  function Linked(next: seq<Link>, m: seq<nat>, t: nat): seq<Link>
    requires m != [] ==> m[|m| - 1] < |next|
  {
    if m == [] then next else next[m[|m| - 1] := To(t)]
  }

  /** Through `lastp`, linking writes the head's `first` or the old tail's `next`. */
  lemma LinkWrites(s: State, c: nat)
    requires c < |s.cpus| && s.cpus[c].pc.Linking? && CpuOk(s.next, s.cpus[c])
    ensures var cpu, s' := s.cpus[c], DoLink(s, c);
            var m, t := cpu.members, cpu.pc.t;
            && (m != [] ==> m[|m| - 1] < |s.next|)
            && s' == s.(next := Linked(s.next, m, t),
                        cpus := s.cpus[c := cpu.(pc := Moving(t, cpu.pc.safe), members := m + [t],
                                                 first := HeadLink(m + [t]))])
  {
  }

  lemma LinkShape(s: State, c: nat)
    requires c < |s.cpus| && s.cpus[c].pc.Linking? && CpuOk(s.next, s.cpus[c])
    ensures |DoLink(s, c).cpus| == |s.cpus| && CpuOk(DoLink(s, c).next, DoLink(s, c).cpus[c])
  {
    hide Chain, DoLink;
    var t, m := s.cpus[c].pc.t, s.cpus[c].members;
    LinkWrites(s, c);
    ChainGrows(s.next, m, t);
    assert (m + [t])[..|m + [t]| - 1] == m;
  }

  lemma LinkKeepsQueues(s: State, c: nat)
    requires SizesOk(s) && ShapesOk(s) && OwnersOk(s) && c < |s.cpus|
    requires s.cpus[c].pc.Linking?
    ensures SizesOk(DoLink(s, c)) && ShapesOk(DoLink(s, c)) && OwnersOk(DoLink(s, c))
  {
    hide Chain, DoLink, CpuOk;
    var cpu, s' := s.cpus[c], DoLink(s, c);
    assert CpuOk(s.next, cpu);
    LinkWrites(s, c);
    LinkShape(s, c);
    LinkOwner(s, c);
    OthersKeepShape(s, s'.next, c);
    OwnerChange(s, s', c, cpu.pc.t);
  }

  lemma LinkOwner(s: State, c: nat)
    requires SizesOk(s) && OwnersOk(s) && c < |s.cpus| && s.cpus[c].pc.Linking?
    requires CpuOk(s.next, s.cpus[c])
    ensures var t, m := s.cpus[c].pc.t, s.cpus[c].members;
            && t < |s.next| && s.next[t] == Tail && s.owner[t] == c
            && (m != [] ==> var u := m[|m| - 1];
                            u < |s.next| && s.owner[u] == c && s.next[u] == Tail)
  {
  }

  lemma LastInRange(next: seq<Link>, m: seq<nat>)
    requires Chain(next, m)
    ensures m != [] ==> m[|m| - 1] < |next| && next[m[|m| - 1]] == Tail && m[0] < |next|
  {
  }

  lemma ResetKeepsQueues(s: State, c: nat)
    requires SizesOk(s) && ShapesOk(s) && OwnersOk(s) && c < |s.cpus|
    requires s.cpus[c].pc.Resetting?
    ensures SizesOk(DoReset(s, c)) && ShapesOk(DoReset(s, c)) && OwnersOk(DoReset(s, c))
  {
    hide Chain;
    var cpu := s.cpus[c];
    var t, m := cpu.pc.t, cpu.members;
    var s' := DoReset(s, c);
    assert CpuOk(s.next, cpu);
    LastInRange(s.next, m);
    assert Owns(cpu, t) && s.owner[t] == c;
    assert m == [t] + m[1..];
    ChainShrinks(s.next, m);
    OthersKeepShape(s, s'.next, c);
    OwnerChange(s, s', c, t);
  }

  lemma StepKeepsQueues(s: State, a: Action)
    requires SizesOk(s) && ShapesOk(s) && OwnersOk(s) && Enabled(s, a)
    ensures SizesOk(Apply(s, a)) && |Apply(s, a).next| == |s.next|
    ensures ShapesOk(Apply(s, a)) && OwnersOk(Apply(s, a))
  {
    hide Chain, OwnersOk;
    match a
    case OtherGet(t) => HeldOnly(s, Apply(s, a));
    case OtherPut(t) => HeldOnly(s, Apply(s, a));
    case Claim(c) => ClaimKeepsQueues(s, c);
    case LinkIn(c) => LinkKeepsQueues(s, c);
    case Reset(c) => ResetKeepsQueues(s, c);
    case Test(c) =>
      assert CpuOk(s.next, s.cpus[c]);
      LastInRange(s.next, s.cpus[c].members);
      LocalStepKeepsQueues(s, DoTest(s, c), c);
    case Reinit(c) =>
      assert CpuOk(s.next, s.cpus[c]);
      EmptyChain(s.next);
      LocalStepKeepsQueues(s, DoReinit(s, c), c);
    case _ => PcStepKeepsQueues(s, a);
  }

  lemma PcStepKeepsQueues(s: State, a: Action)
    requires SizesOk(s) && ShapesOk(s) && OwnersOk(s) && Enabled(s, a)
    requires a.StartAdd? || a.MoveLastp? || a.Count? || a.Refuse? || a.StartDrain? || a.Wake? || a.Put?
    ensures SizesOk(Apply(s, a)) && |Apply(s, a).next| == |s.next|
    ensures ShapesOk(Apply(s, a)) && OwnersOk(Apply(s, a))
  {
    hide Chain, OwnersOk;
    assert CpuOk(s.next, s.cpus[a.c]);
    PcStepShape(s, a);
    LocalStepKeepsQueues(s, Apply(s, a), a.c);
  }

  lemma PcStepShape(s: State, a: Action)
    requires SizesOk(s) && Enabled(s, a)
    requires a.StartAdd? || a.MoveLastp? || a.Count? || a.Refuse? || a.StartDrain? || a.Wake? || a.Put?
    requires CpuOk(s.next, s.cpus[a.c])
    ensures |Apply(s, a).cpus| == |s.cpus| && CpuOk(s.next, Apply(s, a).cpus[a.c])
  {
    hide Chain;
  }

  lemma EmptyChain(next: seq<Link>)
    ensures Chain(next, [])
  {
  }

  lemma HeldOnly(s: State, s': State)
    requires SizesOk(s) && SizesOk(s') && OwnersOk(s)
    requires s'.next == s.next && s'.owner == s.owner && s'.cpus == s.cpus
    ensures OwnersOk(s')
  {
  }

  lemma OneCpuMoves(s: State, a: Action)
    requires Enabled(s, a) && !ByOthers(a)
    ensures var s' := Apply(s, a);
            |s'.cpus| == |s.cpus| && s'.cpus == s.cpus[a.c := s'.cpus[a.c]]
  {
  }

  lemma StepKeepsCounts(s: State, a: Action)
    requires Inv(s) && Enabled(s, a)
    requires SizesOk(Apply(s, a)) && |Apply(s, a).next| == |s.next|
    ensures CountsOk(Apply(s, a))
  {
    hide Chain, OwnersOk, RefsOf, CpuOk;
    var s' := Apply(s, a);
    if !ByOthers(a) {
      OneCpuMoves(s, a);
      hide Apply;
      var cpu, cpu' := s.cpus[a.c], s'.cpus[a.c];
      assert CpuOk(s.next, cpu);
      forall t: nat | t < |s'.next|
        ensures s'.refcnt[t] == s'.held[t] + SumRefs(s'.cpus, t)
      {
        assert s.refcnt[t] == s.held[t] + SumRefs(s.cpus, t);
        SumRefsUpdate(s.cpus, a.c, cpu', t);
        StepBalances(s, a, t);
      }
    }
  }

  /** What a step does to a reference count, it does to the references held. */
  predicate Balanced(s: State, s': State, c: nat, t: nat) {
    && c < |s.cpus| && c < |s'.cpus| && t < |s.held| && t < |s.refcnt| && t < |s'.held| && t < |s'.refcnt|
    && s'.refcnt[t] - s'.held[t] - RefsOf(s'.cpus[c], t) == s.refcnt[t] - s.held[t] - RefsOf(s.cpus[c], t)
  }

  lemma StepBalances(s: State, a: Action, t: nat)
    requires SizesOk(s) && Enabled(s, a) && !ByOthers(a) && t < |s.next|
    requires CpuOk(s.next, s.cpus[a.c])
    ensures Balanced(s, Apply(s, a), a.c, t)
  {
    hide CpuOk, Balanced;
    match a
    case Reset(c) => ResetBalances(s, c, t);
    case LinkIn(c) => LinkBalances(s, c, t);
    case Count(c) => CountBalances(s, c, t);
    case Claim(c) => ClaimBalances(s, c, t);
    case StartAdd(c, _, _) => OutsideBalances(s, a, t);
    case Refuse(c) => OutsideBalances(s, a, t);
    case Put(c) => OutsideBalances(s, a, t);
    case _ => QuietBalances(s, a, t);
  }

  lemma ResetBalances(s: State, c: nat, t: nat)
    requires SizesOk(s) && c < |s.cpus| && s.cpus[c].pc.Resetting? && t < |s.next|
    requires CpuOk(s.next, s.cpus[c])
    ensures Balanced(s, DoReset(s, c), c, t)
  {
  }

  lemma CountBalances(s: State, c: nat, t: nat)
    requires SizesOk(s) && c < |s.cpus| && s.cpus[c].pc.Counting? && t < |s.next|
    requires CpuOk(s.next, s.cpus[c])
    ensures Balanced(s, DoCount(s, c), c, t)
  {
    var m := s.cpus[c].members;
    assert m[|m| - 1] in m;
  }

  lemma ClaimBalances(s: State, c: nat, t: nat)
    requires SizesOk(s) && c < |s.cpus| && s.cpus[c].pc.Claiming? && t < |s.next|
    ensures Balanced(s, DoClaim(s, c), c, t)
  {
  }

  lemma OutsideBalances(s: State, a: Action, t: nat)
    requires SizesOk(s) && Enabled(s, a) && (a.StartAdd? || a.Refuse? || a.Put?) && t < |s.next|
    ensures Balanced(s, Apply(s, a), a.c, t)
  {
  }

  lemma QuietBalances(s: State, a: Action, t: nat)
    requires SizesOk(s) && Enabled(s, a) && t < |s.next|
    requires a.MoveLastp? || a.StartDrain? || a.Test? || a.Wake? || a.Reinit?
    ensures Balanced(s, Apply(s, a), a.c, t)
  {
  }

  lemma LinkBalances(s: State, c: nat, t: nat)
    requires SizesOk(s) && c < |s.cpus| && s.cpus[c].pc.Linking? && t < |s.next|
    requires CpuOk(s.next, s.cpus[c])
    ensures Balanced(s, DoLink(s, c), c, t)
  {
  }

  lemma StepKeepsInv(s: State, a: Action)
    requires Inv(s) && Enabled(s, a)
    ensures Inv(Apply(s, a))
  {
    hide ShapesOk, OwnersOk, CountsOk, Enabled, Apply;
    StepKeepsQueues(s, a);
    StepKeepsCounts(s, a);
  }

  // ---------------------------------------------------------------- runs

  /** No task queued, every reference accounted for, every head freshly initialised. */
  ghost predicate IsInit(s: State) {
    && SizesOk(s)
    && (forall t :: 0 <= t < |s.next| ==>
          s.next[t] == Null && s.owner[t] == -1 && s.refcnt[t] == s.held[t])
    && (forall c :: 0 <= c < |s.cpus| ==> s.cpus[c] == Cpu(Idle, Tail, First, []))
  }

  predicate IsRun(s: State, actions: seq<Action>)
    decreases |actions|
  {
    actions == [] || (Enabled(s, actions[0]) && IsRun(Apply(s, actions[0]), actions[1..]))
  }

  function After(s: State, actions: seq<Action>): State
    requires IsRun(s, actions)
    decreases |actions|
  {
    if actions == [] then s else After(Apply(s, actions[0]), actions[1..])
  }

  lemma InitHolds(s: State)
    requires IsInit(s)
    ensures Inv(s)
  {
    forall t: nat | t < |s.next|
      ensures SumRefs(s.cpus, t) == 0
    {
      NoRefs(s.cpus, t);
    }
  }

  lemma {:induction false} NoRefs(cpus: seq<Cpu>, t: nat)
    requires forall c :: 0 <= c < |cpus| ==> cpus[c] == Cpu(Idle, Tail, First, [])
    ensures SumRefs(cpus, t) == 0
  {
    if cpus != [] {
      NoRefs(cpus[1..], t);
    }
  }

  lemma {:induction false} RunKeepsInv(s: State, actions: seq<Action>)
    requires Inv(s) && IsRun(s, actions)
    ensures Inv(After(s, actions))
    decreases |actions|
  {
    hide Inv, Enabled, Apply;
    if actions != [] {
      StepKeepsInv(s, actions[0]);
      RunKeepsInv(Apply(s, actions[0]), actions[1..]);
    }
  }

  /** In every reachable state a task somebody has queued, claimed, is waking or is about to put is
      alive: its count is at least one, and exactly what is held and what the queues hold. */
  lemma QueuedTasksAlive(init: State, actions: seq<Action>, c: nat, t: nat)
    requires IsInit(init) && IsRun(init, actions)
    requires var s := After(init, actions);
             c < |s.cpus| && t < |s.next|
             && (Owns(s.cpus[c], t) || (Handles(s.cpus[c].pc) && s.cpus[c].pc.t == t))
    ensures var s := After(init, actions);
            t < |s.refcnt| && t < |s.held| && s.refcnt[t] == s.held[t] + SumRefs(s.cpus, t) && s.refcnt[t] >= 1
  {
    InitHolds(init);
    RunKeepsInv(init, actions);
    var s := After(init, actions);
    SumRefsAtLeast(s.cpus, c, t);
    assert RefsOf(s.cpus[c], t) >= 1;
  }

  // ---------------------------------------------------------------- no lost wake-up

  /** CPU `c` has taken `t` on and has not called `wake_up_process` for it yet. */
  predicate Owes(s: State, c: nat, t: nat) {
    c < |s.cpus| && (Owns(s.cpus[c], t) || (s.cpus[c].pc.Waking? && s.cpus[c].pc.t == t))
  }

  /** A refused claim points at exactly one CPU, and that CPU still owes the wake-up. */
  lemma RefusalHasOneOwner(s: State, c: nat)
    requires Inv(s) && c < |s.cpus| && s.cpus[c].pc.Claiming?
    requires DoClaim(s, c).cpus[c].pc.Refused?
    ensures var t := s.cpus[c].pc.t;
            && t < |s.owner|
            && 0 <= s.owner[t] < |s.cpus|
            && Owes(DoClaim(s, c), s.owner[t], t)
            && forall d :: 0 <= d < |s.cpus| && d != s.owner[t] ==> !Owns(s.cpus[d], t)
  {
  }

  /** The wake-ups and the debts of CPU `c` for `t` after a step, against those before. */
  predicate Settles(s: State, a: Action, c: nat, t: nat)
    requires Enabled(s, a) && t < |s.wakes|
  {
    var s' := Apply(s, a);
    && |s'.wakes| == |s.wakes|
    && s'.wakes[t] >= s.wakes[t]
    && (Owes(s', c, t) || (a == Wake(c) && s'.wakes[t] == s.wakes[t] + 1))
  }

  lemma ResetOwes(s: State, c: nat, t: nat)
    requires c < |s.cpus| && s.cpus[c].pc.Resetting? && Owes(s, c, t) && t < |s.wakes|
    requires s.cpus[c].members != [] && s.cpus[c].members[0] == s.cpus[c].pc.t
    ensures Settles(s, Reset(c), c, t)
  {
    var m := s.cpus[c].members;
    assert m == [m[0]] + m[1..];
  }

  lemma ResetsFirst(s: State, c: nat)
    requires c < |s.cpus| && s.cpus[c].pc.Resetting? && ShapesOk(s)
    ensures s.cpus[c].members != [] && s.cpus[c].members[0] == s.cpus[c].pc.t
  {
    hide Chain;
    ShapeAt(s, c);
  }

  lemma OthersOwe(s: State, a: Action, c: nat, t: nat)
    requires Enabled(s, a) && (ByOthers(a) || a.c != c) && Owes(s, c, t) && t < |s.wakes|
    ensures Settles(s, a, c, t)
  {
    if !ByOthers(a) {
      OneCpuMoves(s, a);
    }
  }

  lemma OwnerOwes(s: State, a: Action, t: nat)
    requires Enabled(s, a) && !ByOthers(a) && !a.Reset? && Owes(s, a.c, t) && t < |s.wakes|
    ensures Settles(s, a, a.c, t)
  {
  }

  /** A debt is settled by the owner's own wake-up and by nothing else. */
  lemma DebtPersists(s: State, a: Action, c: nat, t: nat)
    requires Inv(s) && Enabled(s, a) && Owes(s, c, t) && t < |s.wakes|
    ensures var s' := Apply(s, a);
            && |s'.wakes| == |s.wakes|
            && s'.wakes[t] >= s.wakes[t]
            && (Owes(s', c, t) || (a == Wake(c) && s'.wakes[t] == s.wakes[t] + 1))
  {
    hide ShapesOk, OwnersOk, CountsOk, Apply, Owes, CpuOk;
    if ByOthers(a) || a.c != c {
      OthersOwe(s, a, c, t);
    } else if a.Reset? {
      ResetsFirst(s, c);
      ResetOwes(s, c, t);
    } else {
      OwnerOwes(s, a, t);
    }
  }

  lemma ShapeAt(s: State, c: nat)
    requires ShapesOk(s) && c < |s.cpus|
    ensures CpuOk(s.next, s.cpus[c])
  {
  }

  lemma {:induction false} DebtAlong(s: State, actions: seq<Action>, c: nat, t: nat)
    requires Inv(s) && IsRun(s, actions) && Owes(s, c, t) && t < |s.wakes|
    ensures var s' := After(s, actions);
            t < |s'.wakes| && s'.wakes[t] >= s.wakes[t] && (s'.wakes[t] > s.wakes[t] || Owes(s', c, t))
    decreases |actions|
  {
    hide Inv, Enabled, Apply, Owes;
    if actions != [] {
      var s1 := Apply(s, actions[0]);
      StepKeepsInv(s, actions[0]);
      DebtPersists(s, actions[0], c, t);
      if Owes(s1, c, t) {
        DebtAlong(s1, actions[1..], c, t);
      } else {
        WakesNeverDrop(s1, actions[1..], t);
      }
    }
  }

  lemma {:induction false} WakesNeverDrop(s: State, actions: seq<Action>, t: nat)
    requires IsRun(s, actions) && t < |s.wakes|
    ensures t < |After(s, actions).wakes| && After(s, actions).wakes[t] >= s.wakes[t]
    decreases |actions|
  {
    if actions != [] {
      WakesNeverDrop(Apply(s, actions[0]), actions[1..], t);
    }
  }

  /** No lost wake-up. Take any run to a claim that is refused, and any continuation of it: either
      the task has been woken since the refusal, or the one CPU that owned it still owes the wake-up.
      Once that CPU's drain is over the second case is gone. */
  lemma NoLostWakeup(init: State, before: seq<Action>, c: nat, later: seq<Action>)
    requires IsInit(init) && IsRun(init, before)
    requires var s := After(init, before);
             c < |s.cpus| && s.cpus[c].pc.Claiming? && DoClaim(s, c).cpus[c].pc.Refused?
    requires IsRun(DoClaim(After(init, before), c), later)
    ensures var s := After(init, before);
            var end := After(DoClaim(s, c), later);
            var t := s.cpus[c].pc.t;
            && t < |s.wakes| && t < |s.owner| && t < |end.wakes| && 0 <= s.owner[t]
            && (end.wakes[t] > s.wakes[t] || Owes(end, s.owner[t], t))
            && (s.owner[t] < |end.cpus| && end.cpus[s.owner[t]].pc.Drained? ==> end.wakes[t] > s.wakes[t])
  {
    InitHolds(init);
    RunKeepsInv(init, before);
    var s := After(init, before);
    RefusalIsSettled(s, c, later);
  }

  lemma RefusalIsSettled(s: State, c: nat, later: seq<Action>)
    requires Inv(s) && c < |s.cpus| && s.cpus[c].pc.Claiming? && DoClaim(s, c).cpus[c].pc.Refused?
    requires IsRun(DoClaim(s, c), later)
    ensures var end := After(DoClaim(s, c), later);
            var t := s.cpus[c].pc.t;
            && t < |s.wakes| && t < |s.owner| && t < |end.wakes| && 0 <= s.owner[t]
            && (end.wakes[t] > s.wakes[t] || Owes(end, s.owner[t], t))
            && (s.owner[t] < |end.cpus| && end.cpus[s.owner[t]].pc.Drained? ==> end.wakes[t] > s.wakes[t])
  {
    hide ShapesOk, OwnersOk, CountsOk, Owes;
    var s1 := DoClaim(s, c);
    assert Enabled(s, Claim(c)) && Apply(s, Claim(c)) == s1;
    StepKeepsInv(s, Claim(c));
    RefusalHasOneOwner(s, c);
    var t := s.cpus[c].pc.t;
    assert s1.wakes == s.wakes;
    hide DoClaim;
    DebtAlong(s1, later, s.owner[t], t);
    RunKeepsInv(s1, later);
    NoDebtWhenDrained(After(s1, later), s.owner[t], t);
  }

  lemma NoDebtWhenDrained(s: State, c: nat, t: nat)
    requires Inv(s)
    ensures c < |s.cpus| && s.cpus[c].pc.Drained? ==> !Owes(s, c, t)
  {
  }

  // ---------------------------------------------------------------- the drain ends

  predicate Draining(pc: Pc) {
    pc.Testing? || pc.Resetting? || pc.Waking? || pc.Putting?
  }

  /** Own steps a draining CPU has left. */
  function StepsLeft(cpu: Cpu): nat {
    match cpu.pc
    case Testing(_) => 4 * |cpu.members| + 1
    case Resetting(_, _) => 4 * |cpu.members|
    case Waking(_, _) => 4 * |cpu.members| + 3
    case Putting(_, _) => 4 * |cpu.members| + 2
    case _ => 0
  }

  function OwnStep(cpu: Cpu, c: nat): Action
    requires Draining(cpu.pc)
  {
    match cpu.pc
    case Testing(_) => Test(c)
    case Resetting(_, _) => Reset(c)
    case Waking(_, _) => Wake(c)
    case Putting(_, _) => Put(c)
  }

  /** A draining CPU always has its next step, and each brings it exactly one step closer to the
      end. */
  lemma DrainSteps(s: State, c: nat)
    requires Inv(s) && c < |s.cpus| && Draining(s.cpus[c].pc)
    ensures Enabled(s, OwnStep(s.cpus[c], c))
    ensures var cpu' := Apply(s, OwnStep(s.cpus[c], c)).cpus[c];
            StepsLeft(cpu') == StepsLeft(s.cpus[c]) - 1 && (Draining(cpu'.pc) || cpu'.pc.Drained?)
  {
    hide Chain;
    ShapeAt(s, c);
  }

  /** No step of anybody else sets a draining CPU back. */
  lemma DrainUndisturbed(s: State, c: nat, a: Action)
    requires c < |s.cpus| && Draining(s.cpus[c].pc) && Enabled(s, a)
    requires a != OwnStep(s.cpus[c], c)
    ensures c < |Apply(s, a).cpus| && Apply(s, a).cpus[c] == s.cpus[c]
  {
    if !ByOthers(a) {
      OneCpuMoves(s, a);
    }
  }
}
