/** Active balancing: tick pull and irq_work push compete for one flag per run queue; a stopper
    detaches a task and attaches it elsewhere; other CPUs pull runnable tasks meanwhile. */
module ActiveBalance {

  const INVALID := -1

  datatype MigType = NoType | MigUx | MigRt

  datatype Kind = TickPull | IrqPush

  /** A stop work: flag set, queued at the stopper, or running with the target CPU it read. */
  datatype Stage = Requested | Queued | Started(target: int)

  datatype Work = Work(kind: Kind, stage: Stage)

  /** A push request on its way: recorded, posted as irq_work, in the handler with the target it
      read, or about to be given up. */
  datatype Irq = NoIrq | Recorded | Posted | Entered(target: int) | Failing

  /** The balancing fields of a run queue. `pending` is bookkeeping: all stop works that were asked
      for and have not finished; nothing in the steps looks at how many there are. */
  datatype Lb = Lb(
    active: bool,
    pushCpu: int,
    lbPid: int,
    migType: MigType,
    irqwbPid: int,
    irqwbPush: int,
    irq: Irq,
    pending: seq<Work>)

  /** A task detached from one run queue and not yet attached to the next. */
  datatype Carry = Empty | Holding(t: nat, dst: nat)

  datatype Rq = Rq(queue: set<nat>, stopper: Carry, puller: Carry)

  datatype Where = OnRq | ByStopper(c: nat) | ByPuller(c: nat) | Asleep

  /** `cpu` is the task's CPU; `where` is bookkeeping. */
  datatype Task = Task(cpu: nat, mask: set<nat>, ptr: set<nat>, perCpu: bool, pinned: bool, where: Where)

  /** `irqWork` is the CPU on which the one irq_work of the balancer is pending, or -1. */
  datatype State = State(lbs: seq<Lb>, rqs: seq<Rq>, tasks: seq<Task>, irqWork: int)

  function Pid(t: nat): int {
    t + 1
  }

  predicate MayRun(t: Task, c: int) {
    c >= 0 && c in t.mask && c in t.ptr
  }

  /** `can_migrate_task`. */
  predicate CanMigrate(t: Task, c: int) {
    !t.perCpu && MayRun(t, c) && !t.pinned
  }

  predicate Valid(s: State, c: int) {
    0 <= c < |s.lbs|
  }

  // ---------------------------------------------------------------- steps on the balancing fields

  /** `trans_kick_active_balance`, under the run-queue lock. */
  function Kick(b: Lb, d: nat, t: nat, ux: bool): Lb {
    if b.active then b
    else
      b.(active := true, pushCpu := d, lbPid := Pid(t), migType := if ux then MigUx else MigRt,
         pending := b.pending + [Work(TickPull, Requested)])
  }

  function Without<T>(s: seq<T>, i: nat): seq<T>
    requires i < |s|
  {
    s[..i] + s[i + 1..]
  }

  /** `stop_one_cpu_nowait`, always accepted. */
  function Submit(b: Lb, i: nat): Lb
    requires i < |b.pending|
  {
    b.(pending := b.pending[i := b.pending[i].(stage := Queued)])
  }

  /** The target that stop work of this kind reads when it begins. */
  function Aim(b: Lb, kind: Kind): int {
    if kind.TickPull? then b.pushCpu else b.irqwbPush
  }

  /** A stopper begins by reading its target without a lock. */
  function Start(b: Lb, i: nat): Lb
    requires i < |b.pending|
  {
    b.(pending := b.pending[i := b.pending[i].(stage := Started(Aim(b, b.pending[i].kind)))])
  }

  /** The locked part of `trans_active_load_balance_cpu_stop`: every way out clears the request. */
  function EndTick(b: Lb, i: nat): Lb
    requires i < |b.pending|
  {
    b.(lbPid := INVALID, migType := NoType, active := false, pending := Without(b.pending, i))
  }

  /** `irqwb_cpu_stop_migrate`: without a request it leaves at once and clears nothing. */
  function EndPush(b: Lb, i: nat, valid: bool): Lb
    requires i < |b.pending|
  {
    if !valid then b.(pending := Without(b.pending, i))
    else b.(irqwbPid := INVALID, irqwbPush := INVALID, active := false, pending := Without(b.pending, i))
  }

  /** `wakeup_irqwb` claims a little CPU: who is pushed, and where to. */
  function Record(b: Lb, d: nat, t: nat): Lb {
    b.(irqwbPid := Pid(t), irqwbPush := d, irq := Recorded)
  }

  /** `irqwb_workfn` under both locks, and its way out. */
  function Decide(b: Lb, worth: bool, valid: bool): Lb {
    if valid && worth && !b.active then
      b.(active := true, irq := NoIrq, pending := b.pending + [Work(IrqPush, Requested)])
    else b.(irq := Failing)
  }

  function GiveUp(b: Lb): Lb {
    b.(irq := NoIrq, irqwbPid := INVALID, irqwbPush := INVALID)
  }

  // ---------------------------------------------------------------- steps of the system

  /** `pick` is the task a stopper detaches, or -1. `LateRecord` is a recorder that did not see a
      request made since it looked. `Wake` to `Pin` are the rest of the kernel. */
  datatype Action =
    | KickFrom(c: nat, d: nat, t: nat, ux: bool)
    | SubmitWork(c: nat, i: nat)
    | StartWork(c: nat, i: nat)
    | FinishTick(c: nat, i: nat, pick: int)
    | FinishPush(c: nat, i: nat, pick: int)
    | RecordPush(c: nat, d: nat, t: nat)
    | LateRecord(c: nat, d: nat, t: nat)
    | Post(c: nat)
    | Enter(c: nat)
    | DecideIrq(c: nat, worth: bool)
    | GiveUpIrq(c: nat)
    | AttachStopped(c: nat)
    | Pull(d: nat, c: nat, t: nat)
    | AttachPulled(d: nat)
    | Wake(t: nat, c: nat)
    | Sleep(t: nat)
    | Affine(t: nat, mask: set<nat>, ptr: set<nat>)
    | Pin(t: nat, on: bool)

  predicate RunsOn(s: State, t: nat, c: nat) {
    t < |s.tasks| && s.tasks[t].where == OnRq && s.tasks[t].cpu == c
  }

  predicate StartedAt(s: State, c: nat, i: nat, kind: Kind) {
    c < |s.lbs| && i < |s.lbs[c].pending| && s.lbs[c].pending[i].kind == kind && s.lbs[c].pending[i].stage.Started?
  }

  /** The task a stopper on `c` may detach for the target it read. */
  predicate MayPick(s: State, c: nat, i: nat, pick: int)
    requires c < |s.lbs| && i < |s.lbs[c].pending| && s.lbs[c].pending[i].stage.Started?
  {
    var target := s.lbs[c].pending[i].stage.target;
    pick == INVALID
    || (0 <= pick < |s.tasks| && c < |s.rqs| && pick in s.rqs[c].queue && Valid(s, target) && s.lbs[c].active
        && CanMigrate(s.tasks[pick], target) && s.rqs[c].stopper.Empty?)
  }

  ghost predicate Enabled(s: State, a: Action) {
    match a
    case KickFrom(c, d, t, _) => c < |s.lbs| && d < |s.lbs| && c != d && RunsOn(s, t, c) && MayRun(s.tasks[t], d)
    case SubmitWork(c, i) => c < |s.lbs| && i < |s.lbs[c].pending| && s.lbs[c].pending[i].stage.Requested?
    case StartWork(c, i) =>
      c < |s.lbs| && c < |s.rqs| && i < |s.lbs[c].pending| && s.lbs[c].pending[i].stage.Queued?
          && s.rqs[c].stopper.Empty?
      && forall j :: 0 <= j < |s.lbs[c].pending| ==> !s.lbs[c].pending[j].stage.Started?
    case FinishTick(c, i, pick) => StartedAt(s, c, i, TickPull) && MayPick(s, c, i, pick)
    case FinishPush(c, i, pick) => StartedAt(s, c, i, IrqPush) && MayPick(s, c, i, pick)
    case RecordPush(c, d, t) =>
      c < |s.lbs| && d < |s.lbs| && c != d && s.lbs[c].irqwbPid <= 0 && RunsOn(s, t, c) && CanMigrate(s.tasks[t], d)
    case LateRecord(c, d, t) =>
      c < |s.lbs| && d < |s.lbs| && c != d && s.lbs[c].irq.NoIrq? && RunsOn(s, t, c) && CanMigrate(s.tasks[t], d)
    case Post(c) => c < |s.lbs| && s.lbs[c].irq.Recorded?
    case Enter(c) => c < |s.lbs| && s.lbs[c].irq.Posted?
    case DecideIrq(c, _) => c < |s.lbs| && s.lbs[c].irq.Entered?
    case GiveUpIrq(c) => c < |s.lbs| && s.lbs[c].irq.Failing?
    case AttachStopped(c) => c < |s.rqs| && s.rqs[c].stopper.Holding? && s.rqs[c].stopper.t < |s.tasks|
    case Pull(d, c, t) =>
      d < |s.rqs| && c < |s.rqs| && c != d && s.rqs[d].puller.Empty? && t in s.rqs[c].queue && t < |s.tasks|
          && MayRun(s.tasks[t], d)
    case AttachPulled(d) => d < |s.rqs| && s.rqs[d].puller.Holding? && s.rqs[d].puller.t < |s.tasks|
    case Wake(t, c) => t < |s.tasks| && s.tasks[t].where == Asleep && c < |s.rqs| && MayRun(s.tasks[t], c)
    case Sleep(t) => t < |s.tasks| && s.tasks[t].where == OnRq
    case Affine(t, mask, ptr) =>
      t < |s.tasks| && (s.tasks[t].where == OnRq || s.tasks[t].where == Asleep)
    case Pin(t, _) => t < |s.tasks| && s.tasks[t].where == OnRq
  }

  function SetLb(s: State, c: nat, b: Lb): State {
    s.(lbs := if c < |s.lbs| then s.lbs[c := b] else s.lbs)
  }

  /** `deactivate_task` and `set_task_cpu`: the task leaves `c` and belongs to `dst`. */
  function Detach(s: State, c: nat, t: nat, dst: nat, w: Where): State
    requires c < |s.rqs| && t < |s.tasks|
  {
    s.(rqs := s.rqs[c := s.rqs[c].(queue := s.rqs[c].queue - {t})],
       tasks := s.tasks[t := s.tasks[t].(cpu := dst, where := w)])
  }

  function StopperTakes(s: State, c: nat, pick: int, target: int): State
    requires c < |s.rqs| && 0 <= pick < |s.tasks| && target >= 0
  {
    var u := Detach(s, c, pick, target, ByStopper(c));
    u.(rqs := u.rqs[c := u.rqs[c].(stopper := Holding(pick, target))])
  }

  /** `attach_one_task` on the run queue `dst`. */
  function Attach(s: State, t: nat, dst: nat): State
    requires t < |s.tasks|
  {
    s.(rqs := if dst < |s.rqs| then s.rqs[dst := s.rqs[dst].(queue := s.rqs[dst].queue + {t})] else s.rqs,
       tasks := s.tasks[t := s.tasks[t].(where := OnRq)])
  }

  ghost function Apply(s: State, a: Action): State
    requires Enabled(s, a)
  {
    match a
    case KickFrom(c, d, t, ux) => SetLb(s, c, Kick(s.lbs[c], d, t, ux))
    case SubmitWork(c, i) => SetLb(s, c, Submit(s.lbs[c], i))
    case StartWork(c, i) => SetLb(s, c, Start(s.lbs[c], i))
    case FinishTick(c, i, pick) => DoFinish(s, c, pick, s.lbs[c].pending[i].stage.target, EndTick(s.lbs[c], i))
    case FinishPush(c, i, pick) =>
      var target := s.lbs[c].pending[i].stage.target;
      DoFinish(s, c, pick, target, EndPush(s.lbs[c], i, Valid(s, target)))
    case RecordPush(c, d, t) => SetLb(s, c, Record(s.lbs[c], d, t))
    case LateRecord(c, d, t) => SetLb(s, c, Record(s.lbs[c], d, t))
    case Post(c) => DoPost(s, c)
    case Enter(c) => SetLb(s, c, s.lbs[c].(irq := Entered(s.lbs[c].irqwbPush))).(irqWork := INVALID)
    case DecideIrq(c, worth) => SetLb(s, c, Decide(s.lbs[c], worth, Valid(s, s.lbs[c].irq.target)))
    case GiveUpIrq(c) => SetLb(s, c, GiveUp(s.lbs[c]))
    case AttachStopped(c) => DoAttachStopped(s, c)
    case Pull(d, c, t) => DoPull(s, d, c, t)
    case AttachPulled(d) => DoAttachPulled(s, d)
    case Wake(t, c) => Attach(s.(tasks := s.tasks[t := s.tasks[t].(cpu := c)]), t, c)
    case Sleep(t) => DoSleep(s, t)
    case Affine(t, mask, ptr) => s.(tasks := s.tasks[t := s.tasks[t].(mask := mask, ptr := ptr)])
    case Pin(t, on) => s.(tasks := s.tasks[t := s.tasks[t].(pinned := on)])
  }

  function DoFinish(s: State, c: nat, pick: int, target: int, b: Lb): State {
    var u := SetLb(s, c, b);
    if 0 <= pick < |s.tasks| && c < |s.rqs| && target >= 0 then StopperTakes(u, c, pick, target) else u
  }

  /** `irq_work_queue_on`: the one irq_work is refused while it is pending anywhere. */
  function DoPost(s: State, c: nat): State
    requires c < |s.lbs|
  {
    if s.irqWork < 0 then SetLb(s, c, s.lbs[c].(irq := Posted)).(irqWork := c)
    else SetLb(s, c, s.lbs[c].(irq := NoIrq))
  }

  function DoAttachStopped(s: State, c: nat): State
    requires c < |s.rqs| && s.rqs[c].stopper.Holding? && s.rqs[c].stopper.t < |s.tasks|
  {
    var h := s.rqs[c].stopper;
    Attach(s.(rqs := s.rqs[c := s.rqs[c].(stopper := Empty)]), h.t, h.dst)
  }

  /** The detaching half of `__pull_runnable_task`, run by the destination CPU `d`. */
  function DoPull(s: State, d: nat, c: nat, t: nat): State
    requires d < |s.rqs| && c < |s.rqs| && t < |s.tasks|
  {
    var u := Detach(s, c, t, d, ByPuller(d));
    u.(rqs := u.rqs[d := u.rqs[d].(puller := Holding(t, d))])
  }

  function DoAttachPulled(s: State, d: nat): State
    requires d < |s.rqs| && s.rqs[d].puller.Holding? && s.rqs[d].puller.t < |s.tasks|
  {
    var h := s.rqs[d].puller;
    Attach(s.(rqs := s.rqs[d := s.rqs[d].(puller := Empty)]), h.t, h.dst)
  }

  function DoSleep(s: State, t: nat): State
    requires t < |s.tasks|
  {
    var c := s.tasks[t].cpu;
    s.(rqs := if c < |s.rqs| then s.rqs[c := s.rqs[c].(queue := s.rqs[c].queue - {t})] else s.rqs,
       tasks := s.tasks[t := s.tasks[t].(where := Asleep)])
  }

  // ---------------------------------------------------------------- one stopper per flag

  predicate PushRecorded(b: Lb, c: nat, n: nat) {
    b.irqwbPid > 0 && 0 <= b.irqwbPush < n && b.irqwbPush != c
  }

  /** The flag of one run queue and all requests for it. */
  predicate LbOk(b: Lb, c: nat, n: nat) {
    && (b.active <==> |b.pending| == 1) && |b.pending| <= 1
    && (|b.pending| == 1 && b.pending[0].kind.TickPull? ==>
          0 <= b.pushCpu < n && b.pushCpu != c &&
          (b.pending[0].stage.Started? ==> b.pending[0].stage.target == b.pushCpu))
    && (|b.pending| == 1 && b.pending[0].kind.IrqPush? ==>
          PushRecorded(b, c, n) && b.irq.NoIrq? &&
          (b.pending[0].stage.Started? ==> b.pending[0].stage.target == b.irqwbPush))
    && (!b.irq.NoIrq? ==> PushRecorded(b, c, n))
    && (b.irq.Entered? ==> b.irq.target == b.irqwbPush)
  }

  ghost predicate FlagsInv(s: State) {
    && (forall c :: 0 <= c < |s.lbs| ==> LbOk(s.lbs[c], c, |s.lbs|))
    && (forall c :: 0 <= c < |s.lbs| ==> (s.lbs[c].irq.Posted? <==> s.irqWork == c))
  }

  predicate Atomic(a: Action) {
    !a.LateRecord?
  }

  lemma OneLb(s: State, u: State, c: nat)
    requires FlagsInv(s) && c < |s.lbs| == |u.lbs| && LbOk(u.lbs[c], c, |u.lbs|)
    requires forall d :: 0 <= d < |s.lbs| && d != c ==> u.lbs[d] == s.lbs[d]
    requires if u.lbs[c].irq.Posted? == s.lbs[c].irq.Posted? then u.irqWork == s.irqWork
             else if u.lbs[c].irq.Posted? then s.irqWork < 0 && u.irqWork == c
             else u.irqWork == INVALID
    ensures FlagsInv(u)
  {
  }

  /** What a step makes of one record keeps it in order and posts nothing. */
  predicate Follows(b: Lb, v: Lb, c: nat, n: nat) {
    LbOk(v, c, n) && (v.irq.Posted? <==> b.irq.Posted?)
  }

  lemma KickFollows(b: Lb, c: nat, n: nat, d: nat, t: nat, ux: bool)
    requires LbOk(b, c, n) && d < n && d != c
    ensures Follows(b, Kick(b, d, t, ux), c, n)
  {
  }

  lemma SubmitFollows(b: Lb, c: nat, n: nat, i: nat)
    requires LbOk(b, c, n) && i < |b.pending|
    ensures Follows(b, Submit(b, i), c, n) && Follows(b, Start(b, i), c, n)
  {
  }

  lemma EndTickFollows(b: Lb, c: nat, n: nat, i: nat)
    requires LbOk(b, c, n) && i < |b.pending| && b.pending[i].kind.TickPull?
    ensures Follows(b, EndTick(b, i), c, n)
  {
  }

  lemma EndPushFollows(b: Lb, c: nat, n: nat, i: nat)
    requires LbOk(b, c, n) && i < |b.pending| && b.pending[i].kind.IrqPush? && b.pending[i].stage.Started?
    ensures 0 <= b.pending[i].stage.target < n && Follows(b, EndPush(b, i, true), c, n)
  {
  }

  lemma RecordFollows(b: Lb, c: nat, n: nat, d: nat, t: nat)
    requires LbOk(b, c, n) && b.irqwbPid <= 0 && d < n && d != c
    ensures Follows(b, Record(b, d, t), c, n)
  {
  }

  lemma HandlerFollows(b: Lb, c: nat, n: nat, worth: bool)
    requires LbOk(b, c, n)
    ensures b.irq.Entered? ==> 0 <= b.irq.target < n && Follows(b, Decide(b, worth, true), c, n)
    ensures b.irq.Failing? ==> Follows(b, GiveUp(b), c, n)
  {
  }

  lemma LbAt(s: State, c: nat)
    requires FlagsInv(s) && c < |s.lbs|
    ensures LbOk(s.lbs[c], c, |s.lbs|) && (s.lbs[c].irq.Posted? <==> s.irqWork == c)
  {
  }

  lemma SameLbs(s: State, u: State)
    requires FlagsInv(s) && u.lbs == s.lbs && u.irqWork == s.irqWork
    ensures FlagsInv(u)
  {
  }

  lemma SetLbOk(s: State, c: nat, b: Lb)
    requires FlagsInv(s) && c < |s.lbs| && Follows(s.lbs[c], b, c, |s.lbs|)
    ensures FlagsInv(SetLb(s, c, b))
  {
    hide FlagsInv, LbOk;
    OneLb(s, SetLb(s, c, b), c);
  }

  lemma FinishLbs(s: State, c: nat, pick: int, target: int, b: Lb)
    requires FlagsInv(s) && c < |s.lbs| && Follows(s.lbs[c], b, c, |s.lbs|)
    ensures FlagsInv(DoFinish(s, c, pick, target, b))
  {
    hide FlagsInv, LbOk;
    SetLbOk(s, c, b);
    assert DoFinish(s, c, pick, target, b).lbs == SetLb(s, c, b).lbs;
    SameLbs(SetLb(s, c, b), DoFinish(s, c, pick, target, b));
  }

  lemma PostLbs(s: State, c: nat)
    requires FlagsInv(s) && c < |s.lbs| && s.lbs[c].irq.Recorded?
    ensures FlagsInv(DoPost(s, c))
  {
    LbAt(s, c);
    hide FlagsInv;
    OneLb(s, DoPost(s, c), c);
  }

  lemma EnterLbs(s: State, c: nat)
    requires FlagsInv(s) && c < |s.lbs| && s.lbs[c].irq.Posted?
    ensures FlagsInv(SetLb(s, c, s.lbs[c].(irq := Entered(s.lbs[c].irqwbPush))).(irqWork := INVALID))
  {
  }

  /** The steps that touch no balancing field. */
  predicate OnPlaces(a: Action) {
    a.AttachStopped? || a.Pull? || a.AttachPulled? || a.Wake? || a.Sleep? || a.Affine? || a.Pin?
  }

  lemma PlaceActionStep(s: State, a: Action)
    requires FlagsInv(s) && Enabled(s, a) && OnPlaces(a)
    ensures FlagsInv(Apply(s, a))
  {
    hide FlagsInv;
    assert Apply(s, a).lbs == s.lbs && Apply(s, a).irqWork == s.irqWork;
    SameLbs(s, Apply(s, a));
  }

  lemma StopActionStep(s: State, a: Action)
    requires FlagsInv(s) && Enabled(s, a) && (a.FinishTick? || a.FinishPush?)
    ensures FlagsInv(Apply(s, a))
  {
    LbAt(s, a.c);
    hide FlagsInv, LbOk, Follows, EndTick, EndPush, DoFinish, MayPick;
    var b := s.lbs[a.c];
    if a.FinishTick? {
      EndTickFollows(b, a.c, |s.lbs|, a.i);
      FinishLbs(s, a.c, a.pick, b.pending[a.i].stage.target, EndTick(b, a.i));
    } else {
      EndPushFollows(b, a.c, |s.lbs|, a.i);
      FinishLbs(s, a.c, a.pick, b.pending[a.i].stage.target, EndPush(b, a.i, true));
    }
  }

  lemma KickActionStep(s: State, a: Action)
    requires FlagsInv(s) && Enabled(s, a) && (a.KickFrom? || a.SubmitWork? || a.StartWork?)
    ensures FlagsInv(Apply(s, a))
  {
    LbAt(s, a.c);
    hide FlagsInv, LbOk, Follows, Kick, Submit, Start, SetLb;
    var b := s.lbs[a.c];
    if a.KickFrom? {
      KickFollows(b, a.c, |s.lbs|, a.d, a.t, a.ux);
      SetLbOk(s, a.c, Kick(b, a.d, a.t, a.ux));
    } else if a.SubmitWork? {
      SubmitFollows(b, a.c, |s.lbs|, a.i);
      SetLbOk(s, a.c, Submit(b, a.i));
    } else {
      SubmitFollows(b, a.c, |s.lbs|, a.i);
      SetLbOk(s, a.c, Start(b, a.i));
    }
  }

  lemma IrqActionStep(s: State, a: Action)
    requires FlagsInv(s) && Enabled(s, a) && (a.RecordPush? || a.DecideIrq? || a.GiveUpIrq?)
    ensures FlagsInv(Apply(s, a))
  {
    LbAt(s, a.c);
    hide FlagsInv, LbOk, Follows, Record, Decide, GiveUp, SetLb;
    var b := s.lbs[a.c];
    if a.RecordPush? {
      RecordFollows(b, a.c, |s.lbs|, a.d, a.t);
      SetLbOk(s, a.c, Record(b, a.d, a.t));
    } else if a.DecideIrq? {
      HandlerFollows(b, a.c, |s.lbs|, a.worth);
      SetLbOk(s, a.c, Decide(b, a.worth, true));
    } else {
      HandlerFollows(b, a.c, |s.lbs|, false);
      SetLbOk(s, a.c, GiveUp(b));
    }
  }

  /** A push for this run queue has its stop work under way: the handler is past its decision and the
      stopper has not finished. */
  predicate PushUnderWay(b: Lb) {
    |b.pending| == 1 && b.pending[0].kind.IrqPush?
  }

  /** Recording a push late keeps the invariant exactly if no push is under way. The invariant says
      more than the promise about flags and stop work: a request is not on its way beside a push. */
  lemma LateRecordKeepsFlags(s: State, c: nat, d: nat, t: nat)
    requires FlagsInv(s) && Enabled(s, LateRecord(c, d, t))
    ensures FlagsInv(Apply(s, LateRecord(c, d, t))) <==> !PushUnderWay(s.lbs[c])
  {
    LbAt(s, c);
    var v := Record(s.lbs[c], d, t);
    if !PushUnderWay(s.lbs[c]) {
      SetLbOk(s, c, v);
    } else {
      assert !LbOk(v, c, |s.lbs|);
      assert SetLb(s, c, v).lbs[c] == v;
    }
  }

  /** No step but that one recording disturbs the invariant. */
  predicate Careful(s: State, a: Action) {
    a.LateRecord? && a.c < |s.lbs| ==> !PushUnderWay(s.lbs[a.c])
  }

  lemma FlagsStep(s: State, a: Action)
    requires FlagsInv(s) && Enabled(s, a)
    ensures FlagsInv(Apply(s, a)) <==> Careful(s, a)
  {
    hide FlagsInv, Enabled, Apply, PushUnderWay;
    if a.LateRecord? {
      LateInRange(s, a);
      LateRecordKeepsFlags(s, a.c, a.d, a.t);
    } else if a.Post? {
      PostStep(s, a);
    } else if a.Enter? {
      EnterStep(s, a);
    } else if a.FinishTick? || a.FinishPush? {
      StopActionStep(s, a);
    } else if a.KickFrom? || a.SubmitWork? || a.StartWork? {
      KickActionStep(s, a);
    } else if a.RecordPush? || a.DecideIrq? || a.GiveUpIrq? {
      IrqActionStep(s, a);
    } else {
      PlaceActionStep(s, a);
    }
  }

  lemma LateInRange(s: State, a: Action)
    requires Enabled(s, a) && a.LateRecord?
    ensures a.c < |s.lbs|
  {
  }

  lemma PostStep(s: State, a: Action)
    requires FlagsInv(s) && Enabled(s, a) && a.Post?
    ensures FlagsInv(Apply(s, a))
  {
    hide FlagsInv;
    PostLbs(s, a.c);
  }

  lemma EnterStep(s: State, a: Action)
    requires FlagsInv(s) && Enabled(s, a) && a.Enter?
    ensures FlagsInv(Apply(s, a))
  {
    hide FlagsInv;
    EnterLbs(s, a.c);
  }

  // ---------------------------------------------------------------- one place per task

  /** A task is where its bookkeeping says: queued on its CPU, or held by the mover that detached it,
      whose destination is the CPU the task already belongs to and may run on. */
  ghost predicate TaskPlaced(s: State, t: nat)
    requires t < |s.tasks|
  {
    var k := s.tasks[t];
    k.cpu < |s.rqs| &&
    match k.where
    case OnRq => t in s.rqs[k.cpu].queue
    case ByStopper(c) => c < |s.rqs| && s.rqs[c].stopper == Holding(t, k.cpu) && CanMigrate(k, k.cpu)
    case ByPuller(c) => c == k.cpu && s.rqs[c].puller == Holding(t, k.cpu) && MayRun(k, k.cpu)
    case Asleep => true
  }

  ghost predicate RqOk(s: State, c: nat)
    requires c < |s.rqs|
  {
    var r := s.rqs[c];
    && (forall t :: t in r.queue ==> t < |s.tasks| && s.tasks[t].where == OnRq && s.tasks[t].cpu == c)
    && (r.stopper.Holding? ==> r.stopper.t < |s.tasks| && s.tasks[r.stopper.t].where == ByStopper(c))
    && (r.puller.Holding? ==> r.puller.t < |s.tasks| && s.tasks[r.puller.t].where == ByPuller(c))
  }

  ghost predicate PlacesInv(s: State) {
    && |s.rqs| == |s.lbs|
    && (forall t :: 0 <= t < |s.tasks| ==> TaskPlaced(s, t))
    && (forall c :: 0 <= c < |s.rqs| ==> RqOk(s, c))
  }

  datatype Place = Queue(c: nat) | Stopper(c: nat) | Puller(c: nat) | Nowhere

  ghost predicate In(s: State, t: nat, p: Place) {
    match p
    case Queue(c) => c < |s.rqs| && t in s.rqs[c].queue
    case Stopper(c) => c < |s.rqs| && s.rqs[c].stopper.Holding? && s.rqs[c].stopper.t == t
    case Puller(c) => c < |s.rqs| && s.rqs[c].puller.Holding? && s.rqs[c].puller.t == t
    case Nowhere => t < |s.tasks| && s.tasks[t].where == Asleep
  }

  function PlaceOf(t: Task): Place {
    match t.where
    case OnRq => Queue(t.cpu)
    case ByStopper(c) => Stopper(c)
    case ByPuller(c) => Puller(c)
    case Asleep => Nowhere
  }

  /** Every task is on exactly one run queue, or in the hands of exactly one mover, or asleep. */
  lemma ExactlyOnePlace(s: State, t: nat)
    requires PlacesInv(s) && t < |s.tasks|
    ensures forall p :: In(s, t, p) <==> p == PlaceOf(s.tasks[t])
  {
    assert TaskPlaced(s, t);
    forall p
      ensures In(s, t, p) <==> p == PlaceOf(s.tasks[t])
    {
      if p != Nowhere && p.c < |s.rqs| {
        assert RqOk(s, p.c);
      }
    }
  }

  lemma SamePlaces(s: State, u: State)
    requires PlacesInv(s) && u.rqs == s.rqs && u.tasks == s.tasks && |u.lbs| == |s.lbs|
    ensures PlacesInv(u)
  {
    forall t | 0 <= t < |u.tasks|
      ensures TaskPlaced(u, t)
    {
      assert TaskPlaced(s, t);
    }
    forall c | 0 <= c < |u.rqs|
      ensures RqOk(u, c)
    {
      assert RqOk(s, c);
    }
  }

  lemma StopperTakesOk(s: State, c: nat, t: nat, dst: nat)
    requires PlacesInv(s) && c < |s.rqs| && t < |s.tasks| && t in s.rqs[c].queue && s.rqs[c].stopper.Empty?
    requires dst < |s.rqs| && CanMigrate(s.tasks[t], dst)
    ensures PlacesInv(StopperTakes(s, c, t, dst))
  {
    var u := StopperTakes(s, c, t, dst);
    forall x | 0 <= x < |u.tasks|
      ensures TaskPlaced(u, x)
    {
      assert TaskPlaced(s, x);
    }
    forall d | 0 <= d < |u.rqs|
      ensures RqOk(u, d)
    {
      assert RqOk(s, d) && RqOk(s, c);
    }
  }

  lemma PullOk(s: State, d: nat, c: nat, t: nat)
    requires PlacesInv(s) && c < |s.rqs| && d < |s.rqs| && c != d && t < |s.tasks| && t in s.rqs[c].queue
    requires s.rqs[d].puller.Empty? && MayRun(s.tasks[t], d)
    ensures PlacesInv(DoPull(s, d, c, t))
  {
    var u := DoPull(s, d, c, t);
    forall x | 0 <= x < |u.tasks|
      ensures TaskPlaced(u, x)
    {
      assert TaskPlaced(s, x);
    }
    forall e | 0 <= e < |u.rqs|
      ensures RqOk(u, e)
    {
      assert RqOk(s, e) && RqOk(s, c);
    }
  }

  lemma AttachStoppedOk(s: State, c: nat)
    requires PlacesInv(s) && c < |s.rqs| && s.rqs[c].stopper.Holding? && s.rqs[c].stopper.t < |s.tasks|
    ensures PlacesInv(DoAttachStopped(s, c))
  {
    var u, t := DoAttachStopped(s, c), s.rqs[c].stopper.t;
    assert RqOk(s, c) && TaskPlaced(s, t);
    forall x | 0 <= x < |u.tasks|
      ensures TaskPlaced(u, x)
    {
      assert TaskPlaced(s, x);
    }
    forall e | 0 <= e < |u.rqs|
      ensures RqOk(u, e)
    {
      assert RqOk(s, e);
    }
  }

  lemma AttachPulledOk(s: State, d: nat)
    requires PlacesInv(s) && d < |s.rqs| && s.rqs[d].puller.Holding? && s.rqs[d].puller.t < |s.tasks|
    ensures PlacesInv(DoAttachPulled(s, d))
  {
    var u, t := DoAttachPulled(s, d), s.rqs[d].puller.t;
    assert RqOk(s, d) && TaskPlaced(s, t);
    forall x | 0 <= x < |u.tasks|
      ensures TaskPlaced(u, x)
    {
      assert TaskPlaced(s, x);
    }
    forall e | 0 <= e < |u.rqs|
      ensures RqOk(u, e)
    {
      assert RqOk(s, e);
    }
  }

  lemma WakeOk(s: State, t: nat, c: nat)
    requires PlacesInv(s) && t < |s.tasks| && s.tasks[t].where == Asleep && c < |s.rqs|
    ensures PlacesInv(Attach(s.(tasks := s.tasks[t := s.tasks[t].(cpu := c)]), t, c))
  {
    var u := Attach(s.(tasks := s.tasks[t := s.tasks[t].(cpu := c)]), t, c);
    forall x | 0 <= x < |u.tasks|
      ensures TaskPlaced(u, x)
    {
      assert TaskPlaced(s, x);
    }
    forall e | 0 <= e < |u.rqs|
      ensures RqOk(u, e)
    {
      assert RqOk(s, e);
    }
  }

  lemma SleepOk(s: State, t: nat)
    requires PlacesInv(s) && t < |s.tasks| && s.tasks[t].where == OnRq
    ensures PlacesInv(DoSleep(s, t))
  {
    var u := DoSleep(s, t);
    assert TaskPlaced(s, t);
    forall x | 0 <= x < |u.tasks|
      ensures TaskPlaced(u, x)
    {
      assert TaskPlaced(s, x);
    }
    forall e | 0 <= e < |u.rqs|
      ensures RqOk(u, e)
    {
      assert RqOk(s, e);
    }
  }

  /** Rewriting what a task may do while nobody carries it. */
  lemma RewriteOk(s: State, t: nat, k: Task)
    requires PlacesInv(s) && t < |s.tasks| && k.where == s.tasks[t].where && k.cpu == s.tasks[t].cpu
    requires k.where == OnRq || k.where == Asleep
    ensures PlacesInv(s.(tasks := s.tasks[t := k]))
  {
    var u := s.(tasks := s.tasks[t := k]);
    forall x | 0 <= x < |u.tasks|
      ensures TaskPlaced(u, x)
    {
      assert TaskPlaced(s, x);
    }
    forall e | 0 <= e < |u.rqs|
      ensures RqOk(u, e)
    {
      assert RqOk(s, e);
    }
  }

  lemma FinishOk(s: State, c: nat, i: nat, pick: int, b: Lb)
    requires PlacesInv(s) && c < |s.lbs| && i < |s.lbs[c].pending| && s.lbs[c].pending[i].stage.Started?
    requires MayPick(s, c, i, pick)
    ensures PlacesInv(DoFinish(s, c, pick, s.lbs[c].pending[i].stage.target, b))
  {
    hide PlacesInv, CanMigrate, StopperTakes;
    var u := SetLb(s, c, b);
    PlacesSize(s);
    SamePlaces(s, u);
    if pick != INVALID {
      StopperTakesOk(u, c, pick, s.lbs[c].pending[i].stage.target);
    }
  }

  lemma PlacesSize(s: State)
    requires PlacesInv(s)
    ensures |s.rqs| == |s.lbs|
  {
  }

  lemma PlacesStep(s: State, a: Action)
    requires PlacesInv(s) && Enabled(s, a)
    ensures PlacesInv(Apply(s, a))
  {
    hide PlacesInv, DoFinish, StopperTakes, DoPull, DoAttachStopped, DoAttachPulled, DoSleep, Attach, Kick, Submit,
        Start, EndTick, EndPush, Decide, GiveUp, Record, CanMigrate;
    PlacesSize(s);
    match a
    case FinishTick(c, i, pick) => FinishOk(s, c, i, pick, EndTick(s.lbs[c], i));
    case FinishPush(c, i, pick) =>
      FinishOk(s, c, i, pick, EndPush(s.lbs[c], i, Valid(s, s.lbs[c].pending[i].stage.target)));
    case AttachStopped(c) => AttachStoppedOk(s, c);
    case Pull(d, c, t) => PullOk(s, d, c, t);
    case AttachPulled(d) => AttachPulledOk(s, d);
    case Wake(t, c) => WakeOk(s, t, c);
    case Sleep(t) => SleepOk(s, t);
    case Affine(t, mask, ptr) => RewriteOk(s, t, s.tasks[t].(mask := mask, ptr := ptr));
    case Pin(t, on) => RewriteOk(s, t, s.tasks[t].(pinned := on));
    case KickFrom(c, d, t, ux) => SamePlaces(s, Apply(s, a));
    case SubmitWork(c, i) => SamePlaces(s, Apply(s, a));
    case StartWork(c, i) => SamePlaces(s, Apply(s, a));
    case RecordPush(c, d, t) => SamePlaces(s, Apply(s, a));
    case LateRecord(c, d, t) => SamePlaces(s, Apply(s, a));
    case Post(c) => SamePlaces(s, Apply(s, a));
    case Enter(c) => SamePlaces(s, Apply(s, a));
    case DecideIrq(c, worth) => SamePlaces(s, Apply(s, a));
    case GiveUpIrq(c) => SamePlaces(s, Apply(s, a));
  }

  /** A task appears on a run queue only if it may run there, whoever moved it. */
  lemma MovesAreAllowed(s: State, a: Action, t: nat, d: nat)
    requires PlacesInv(s) && Enabled(s, a)
    requires d < |s.rqs| && d < |Apply(s, a).rqs| && t < |s.tasks| && t < |Apply(s, a).tasks|
    requires t in Apply(s, a).rqs[d].queue && t !in s.rqs[d].queue
    ensures d in Apply(s, a).tasks[t].mask && d in Apply(s, a).tasks[t].ptr
    ensures !a.Wake? ==> s.tasks[t].cpu == d
  {
    if a.AttachStopped? {
      assert RqOk(s, a.c) && TaskPlaced(s, s.rqs[a.c].stopper.t);
    } else if a.AttachPulled? {
      assert RqOk(s, a.d) && TaskPlaced(s, s.rqs[a.d].puller.t);
    }
  }

  /** Nothing but the record of `t` and the run queues `c` and `d` differs. */
  ghost predicate OnlyMoves(s: State, u: State, t: nat, c: nat, d: nat) {
    && |u.tasks| == |s.tasks| && |u.rqs| == |s.rqs|
    && (forall x :: 0 <= x < |s.tasks| && x != t ==> u.tasks[x] == s.tasks[x])
    && (forall e :: 0 <= e < |s.rqs| && e != c && e != d ==> u.rqs[e] == s.rqs[e])
  }

  /** A stopper that picked a task takes it off its queue, assigns it to the target it read and keeps it in
      hand; one that picked none moves nothing. */
  lemma FinishTakes(s: State, a: Action)
    requires Enabled(s, a) && (a.FinishTick? || a.FinishPush?)
    ensures var u, c, t := Apply(s, a), a.c, a.pick;
            var target := s.lbs[c].pending[a.i].stage.target;
            if t == -1 then u.rqs == s.rqs && u.tasks == s.tasks
            else
              && t in s.rqs[c].queue && target >= 0 && OnlyMoves(s, u, t, c, c)
              && u.tasks[t] == s.tasks[t].(cpu := target, where := ByStopper(c))
              && u.rqs[c] == s.rqs[c].(queue := s.rqs[c].queue - {t}, stopper := Holding(t, target))
  {
    hide EndTick, EndPush, CanMigrate;
  }

  /** Its task then goes on the queue of that target, and its hands are empty. */
  lemma AttachStoppedPuts(s: State, c: nat)
    requires PlacesInv(s) && Enabled(s, AttachStopped(c))
    ensures var u, t, d := Apply(s, AttachStopped(c)), s.rqs[c].stopper.t, s.rqs[c].stopper.dst;
            && d < |s.rqs| && OnlyMoves(s, u, t, c, d) && u.lbs == s.lbs
            && u.tasks[t] == s.tasks[t].(where := OnRq) && s.tasks[t].cpu == d
            && u.rqs[c].stopper == Empty && u.rqs[d].queue == s.rqs[d].queue + {t}
            && (c != d ==> u.rqs[c].queue == s.rqs[c].queue)
  {
    assert RqOk(s, c) && TaskPlaced(s, s.rqs[c].stopper.t);
  }

  /** A pulling CPU takes a task off another queue, assigns it to itself and keeps it in hand; then it puts
      it on its own queue. */
  lemma PullTakes(s: State, d: nat, c: nat, t: nat)
    requires Enabled(s, Pull(d, c, t))
    ensures var u := Apply(s, Pull(d, c, t));
            && OnlyMoves(s, u, t, c, d) && u.lbs == s.lbs
            && u.tasks[t] == s.tasks[t].(cpu := d, where := ByPuller(d))
            && u.rqs[c] == s.rqs[c].(queue := s.rqs[c].queue - {t})
            && u.rqs[d] == s.rqs[d].(puller := Holding(t, d))
  {
  }

  lemma AttachPulledPuts(s: State, d: nat)
    requires PlacesInv(s) && Enabled(s, AttachPulled(d))
    ensures var u, t := Apply(s, AttachPulled(d)), s.rqs[d].puller.t;
            && OnlyMoves(s, u, t, d, d) && u.lbs == s.lbs
            && u.tasks[t] == s.tasks[t].(where := OnRq) && s.tasks[t].cpu == d
            && u.rqs[d] == s.rqs[d].(puller := Empty, queue := s.rqs[d].queue + {t})
  {
    assert RqOk(s, d) && TaskPlaced(s, s.rqs[d].puller.t);
  }

  /** A stopper takes a task off its queue only for a CPU it may move to: it is no per-CPU thread, may
      migrate, and both of its masks allow the CPU. */
  lemma DetachedMayMove(s: State, a: Action, t: nat)
    requires PlacesInv(s) && Enabled(s, a) && t < |s.tasks| && t < |Apply(s, a).tasks|
    requires Apply(s, a).tasks[t].where.ByStopper? && !s.tasks[t].where.ByStopper?
    ensures var k, dst := s.tasks[t], Apply(s, a).tasks[t].cpu;
            !k.perCpu && !k.pinned && dst in k.mask && dst in k.ptr && k.where.OnRq?
  {
    if a.FinishTick? || a.FinishPush? {
      assert RqOk(s, a.c);
    }
  }

  // ---------------------------------------------------------------- whole runs

  ghost predicate IsRun(s: State, run: seq<Action>)
    decreases |run|, 0
  {
    run == [] || (IsRun(s, run[..|run| - 1]) && Enabled(After(s, run[..|run| - 1]), run[|run| - 1]))
  }

  ghost function After(s: State, run: seq<Action>): State
    requires IsRun(s, run)
    decreases |run|, 1
  {
    if run == [] then s else Apply(After(s, run[..|run| - 1]), run[|run| - 1])
  }

  const IDLE := Lb(false, INVALID, INVALID, NoType, INVALID, INVALID, NoIrq, [])

  /** No balancing yet, and every task queued somewhere or asleep. */
  ghost predicate IsInit(s: State) {
    PlacesInv(s) && s.irqWork == INVALID && forall c :: 0 <= c < |s.lbs| ==> s.lbs[c] == IDLE
  }

  lemma {:induction false} RunKeepsPlaces(s: State, run: seq<Action>)
    requires PlacesInv(s) && IsRun(s, run)
    ensures PlacesInv(After(s, run)) && |After(s, run).lbs| == |s.lbs|
  {
    if run != [] {
      RunKeepsPlaces(s, run[..|run| - 1]);
      PlacesStep(After(s, run[..|run| - 1]), run[|run| - 1]);
      SameCpus(After(s, run[..|run| - 1]), run[|run| - 1]);
    }
  }

  lemma SameCpus(s: State, a: Action)
    requires Enabled(s, a)
    ensures |Apply(s, a).lbs| == |s.lbs|
  {
  }

  /** Step `k` of a run is careful, and the flags are in order after `k` steps. */
  ghost predicate CarefulAt(s: State, run: seq<Action>, k: nat) {
    k < |run| && IsRun(s, run[..k]) && Careful(After(s, run[..k]), run[k])
  }

  ghost predicate FlagsAfter(s: State, run: seq<Action>, k: nat) {
    k <= |run| && IsRun(s, run[..k]) && FlagsInv(After(s, run[..k]))
  }

  ghost predicate FlagsAlong(s: State, run: seq<Action>) {
    forall k :: 0 <= k <= |run| ==> FlagsAfter(s, run, k)
  }

  ghost predicate CarefulAlong(s: State, run: seq<Action>) {
    forall k :: 0 <= k < |run| ==> CarefulAt(s, run, k)
  }

  lemma FlagsSplit(s: State, run: seq<Action>)
    requires run != []
    ensures FlagsAlong(s, run) <==> FlagsAlong(s, run[..|run| - 1]) && FlagsAfter(s, run, |run|)
    ensures FlagsAlong(s, run[..|run| - 1]) ==> FlagsAfter(s, run, |run| - 1)
  {
    var front := run[..|run| - 1];
    forall k | 0 <= k <= |front|
      ensures FlagsAfter(s, front, k) == FlagsAfter(s, run, k)
    {
      assert front[..k] == run[..k];
    }
    hide FlagsAfter;
  }

  lemma CarefulSplit(s: State, run: seq<Action>)
    requires run != []
    ensures CarefulAlong(s, run) <==> CarefulAlong(s, run[..|run| - 1]) && CarefulAt(s, run, |run| - 1)
  {
    var front := run[..|run| - 1];
    forall k | 0 <= k < |front|
      ensures CarefulAt(s, front, k) == CarefulAt(s, run, k)
    {
      assert front[..k] == run[..k];
    }
    hide CarefulAt;
  }

  lemma LastStep(s: State, run: seq<Action>)
    requires IsRun(s, run) && run != [] && FlagsAfter(s, run, |run| - 1)
    ensures FlagsAfter(s, run, |run|) <==> CarefulAt(s, run, |run| - 1)
  {
    hide FlagsInv, Careful;
    assert run[..|run|] == run;
    FlagsStep(After(s, run[..|run| - 1]), run[|run| - 1]);
  }

  /** In a run from the start the invariant holds all along exactly if no push was recorded over another
      that had its stop work under way. */
  lemma {:induction false} FlagsHoldExactly(s: State, run: seq<Action>)
    requires IsInit(s) && IsRun(s, run)
    ensures FlagsAlong(s, run) <==> CarefulAlong(s, run)
  {
    if run == [] {
      InitFlags(s);
    } else {
      FlagsHoldExactly(s, run[..|run| - 1]);
      hide FlagsAlong, CarefulAlong, FlagsAfter, CarefulAt, IsRun, IsInit;
      FlagsSplit(s, run);
      CarefulSplit(s, run);
      if FlagsAfter(s, run, |run| - 1) {
        LastStep(s, run);
      }
    }
  }

  lemma InitFlags(s: State)
    requires IsInit(s)
    ensures FlagsInv(s)
  {
  }

  /** Atomic recording is one way to be careful. */
  lemma {:induction false} AtomicRunsAreCareful(s: State, run: seq<Action>)
    requires IsRun(s, run) && forall k :: 0 <= k < |run| ==> Atomic(run[k])
    ensures CarefulAlong(s, run)
  {
    if run != [] {
      AtomicRunsAreCareful(s, run[..|run| - 1]);
      hide IsRun, CarefulAlong;
      CarefulSplit(s, run);
    }
  }

  /** Flag and stop work agree. */
  predicate Booked(b: Lb) {
    |b.pending| == if b.active then 1 else 0
  }

  /** All that the flag promises: one stop work while it is set, none otherwise, and one that has begun
      works for the target recorded now. */
  predicate Tied(b: Lb) {
    && Booked(b)
    && forall i :: 0 <= i < |b.pending| && b.pending[i].stage.Started? ==>
                     b.pending[i].stage.target == Aim(b, b.pending[i].kind) >= 0
  }

  lemma OneTied(b: Lb)
    ensures Tied(b) <==>
              && Booked(b)
              && (b.pending != [] && b.pending[0].stage.Started? ==>
                    b.pending[0].stage.target == Aim(b, b.pending[0].kind) >= 0)
  {
  }

  /** With requests recorded atomically, or at least never over one that has its stop work under way,
      the flag of a run queue is set exactly while one stop work is pending for it, tick pull or push
      but never both, and that stopper works for the target of the request that set the flag. */
  lemma FlagMeansOneStopper(s: State, run: seq<Action>, c: nat)
    requires IsInit(s) && IsRun(s, run) && CarefulAlong(s, run) && c < |After(s, run).lbs|
    ensures Tied(After(s, run).lbs[c])
  {
    hide After, IsRun, IsInit, FlagsInv, Tied;
    FlagsHoldExactly(s, run);
    assert FlagsAfter(s, run, |run|) && run[..|run|] == run;
    LbAt(After(s, run), c);
    OneStopper(After(s, run).lbs[c], c, |After(s, run).lbs|);
  }

  lemma OneStopper(b: Lb, c: nat, n: nat)
    requires LbOk(b, c, n)
    ensures Tied(b)
  {
  }

  // ---------------------------------------------------------------- what goes wrong otherwise

  /** The flag is set and nobody is left to clear it. */
  predicate Stuck(b: Lb) {
    b.active && b.pending == []
  }

  /** Once so, always so: no step of any kind ever balances this run queue again. */
  lemma StuckStays(s: State, a: Action, c: nat)
    requires c < |s.lbs| && Stuck(s.lbs[c]) && Enabled(s, a)
    ensures c < |Apply(s, a).lbs| && Stuck(Apply(s, a).lbs[c])
  {
  }

  /** The record a step on balancing fields leaves behind. */
  ghost function LbAfter(s: State, a: Action): Lb
    requires Enabled(s, a) && !OnPlaces(a)
  {
    var b := s.lbs[a.c];
    match a
    case KickFrom(_, d, t, ux) => Kick(b, d, t, ux)
    case SubmitWork(_, i) => Submit(b, i)
    case StartWork(_, i) => Start(b, i)
    case FinishTick(_, i, _) => EndTick(b, i)
    case FinishPush(_, i, _) => EndPush(b, i, Valid(s, b.pending[i].stage.target))
    case RecordPush(_, d, t) => Record(b, d, t)
    case LateRecord(_, d, t) => Record(b, d, t)
    case Post(_) => b.(irq := if s.irqWork < 0 then Posted else NoIrq)
    case Enter(_) => b.(irq := Entered(b.irqwbPush))
    case DecideIrq(_, worth) => Decide(b, worth, Valid(s, b.irq.target))
    case GiveUpIrq(_) => GiveUp(b)
  }

  lemma StepOnOneLb(s: State, a: Action)
    requires Enabled(s, a) && !OnPlaces(a)
    ensures a.c < |s.lbs| && Apply(s, a).lbs == s.lbs[a.c := LbAfter(s, a)]
  {
    hide Kick, Submit, Start, EndTick, EndPush, Record, Decide, GiveUp, CanMigrate;
  }

  /** A push stopper that found its target wiped. */
  predicate Wiped(s: State, a: Action, c: nat) {
    a.FinishPush? && a.c == c && c < |s.lbs| && a.i < |s.lbs[c].pending| && s.lbs[c].pending[a.i].stage.Started? &&
    !Valid(s, s.lbs[c].pending[a.i].stage.target)
  }

  /** Whoever records when, a flag gets stuck by a stopper without a target and by nothing else. */
  lemma StuckStep(s: State, a: Action, c: nat)
    requires c < |s.lbs| && Booked(s.lbs[c]) && Enabled(s, a)
    ensures c < |Apply(s, a).lbs|
    ensures Stuck(Apply(s, a).lbs[c]) <==> Wiped(s, a, c)
    ensures !Wiped(s, a, c) ==> Booked(Apply(s, a).lbs[c])
  {
    if OnPlaces(a) {
      PlacesKeepLbs(s, a);
    } else {
      StepOnOneLb(s, a);
      hide Apply, MayPick;
    }
  }

  lemma PlacesKeepLbs(s: State, a: Action)
    requires Enabled(s, a) && OnPlaces(a)
    ensures Apply(s, a).lbs == s.lbs
  {
  }

  ghost predicate WipedAt(s: State, run: seq<Action>, k: nat, c: nat) {
    k < |run| && IsRun(s, run[..k]) && Wiped(After(s, run[..k]), run[k], c)
  }

  ghost predicate EverWiped(s: State, run: seq<Action>, c: nat) {
    exists k :: 0 <= k < |run| && WipedAt(s, run, k, c)
  }

  lemma WipedSplit(s: State, run: seq<Action>, c: nat)
    requires run != []
    ensures EverWiped(s, run, c) <==> EverWiped(s, run[..|run| - 1], c) || WipedAt(s, run, |run| - 1, c)
  {
    var front := run[..|run| - 1];
    forall k | 0 <= k < |front|
      ensures WipedAt(s, front, k, c) == WipedAt(s, run, k, c)
    {
      assert front[..k] == run[..k];
    }
    hide WipedAt;
  }

  /** Over all runs, late recordings included: a run queue ends with its flag stuck if and only if
      some push stopper of it found its target wiped; otherwise flag and stop work agree. */
  lemma {:induction false} StuckExactly(s: State, run: seq<Action>, c: nat)
    requires IsInit(s) && IsRun(s, run) && c < |s.lbs|
    ensures c < |After(s, run).lbs|
    ensures Stuck(After(s, run).lbs[c]) <==> EverWiped(s, run, c)
    ensures !Stuck(After(s, run).lbs[c]) ==> Booked(After(s, run).lbs[c])
  {
    if run != [] {
      hide Enabled, Apply, Wiped, EverWiped, Stuck, Booked, IsInit;
      StuckExactly(s, run[..|run| - 1], c);
      WipedSplit(s, run, c);
      var u, a := After(s, run[..|run| - 1]), run[|run| - 1];
      if Stuck(u.lbs[c]) {
        StuckStays(u, a, c);
      } else {
        StuckStep(u, a, c);
      }
    }
  }

  lemma {:induction false} Prefixes(s: State, run: seq<Action>, k: nat)
    requires IsRun(s, run) && k <= |run|
    ensures IsRun(s, run[..k])
  {
    if k < |run| {
      var front := run[..|run| - 1];
      Prefixes(s, front, k);
      assert front[..k] == run[..k];
    } else {
      assert run[..k] == run;
    }
  }

  ghost predicate BookedAfter(s: State, run: seq<Action>, k: nat, c: nat) {
    k <= |run| && IsRun(s, run[..k]) && c < |After(s, run[..k]).lbs| && Booked(After(s, run[..k]).lbs[c])
  }

  lemma BookedExactly(s: State, run: seq<Action>, k: nat, c: nat)
    requires IsInit(s) && IsRun(s, run) && c < |s.lbs| && k <= |run|
    ensures BookedAfter(s, run, k, c) <==> forall j :: 0 <= j < k ==> !WipedAt(s, run, j, c)
  {
    hide IsInit, Wiped;
    var front := run[..k];
    Prefixes(s, run, k);
    StuckExactly(s, front, c);
    forall j | 0 <= j < k
      ensures WipedAt(s, front, j, c) == WipedAt(s, run, j, c)
    {
      assert front[..j] == run[..j];
    }
  }

  /** Over all runs, late recordings included: flag and stop work of a run queue agree after every step
      if and only if no push stopper of it ever finds its target wiped. */
  lemma AgreeExactly(s: State, run: seq<Action>, c: nat)
    requires IsInit(s) && IsRun(s, run) && c < |s.lbs|
    ensures (forall k :: 0 <= k <= |run| ==> BookedAfter(s, run, k, c)) <==> !EverWiped(s, run, c)
  {
    hide BookedAfter, WipedAt, IsRun, IsInit;
    forall k | 0 <= k <= |run|
      ensures BookedAfter(s, run, k, c) <==> forall j :: 0 <= j < k ==> !WipedAt(s, run, j, c)
    {
      BookedExactly(s, run, k, c);
    }
    assert BookedAfter(s, run, |run|, c) <==> forall j :: 0 <= j < |run| ==> !WipedAt(s, run, j, c);
  }

  /** A push stopper of this run queue has begun. */
  predicate Pushing(b: Lb) {
    b.pending != [] && b.pending[0].kind.IrqPush? && b.pending[0].stage.Started?
  }

  /** A stopper that begins without a target or ends without a valid one, another target recorded over
      that of a push stopper that has begun, or a handler that wipes it. */
  predicate Unties(s: State, a: Action, c: nat) {
    !OnPlaces(a) && a.c == c && c < |s.lbs| &&
    var b := s.lbs[c];
    match a
    case StartWork(_, i) => i < |b.pending| && Aim(b, b.pending[i].kind) < 0
    case FinishPush(_, i, _) => Wiped(s, a, c)
    case RecordPush(_, d, _) => Pushing(b) && b.pending[0].stage.target != d
    case LateRecord(_, d, _) => Pushing(b) && b.pending[0].stage.target != d
    case GiveUpIrq(_) => Pushing(b)
    case _ => false
  }

  lemma TiedLb(s: State, a: Action)
    requires Enabled(s, a) && !OnPlaces(a) && Tied(s.lbs[a.c])
    ensures Tied(LbAfter(s, a)) <==> !Unties(s, a, a.c)
  {
    hide MayPick, CanMigrate, Tied;
    OneTied(s.lbs[a.c]);
    OneTied(LbAfter(s, a));
  }

  lemma TiedStep(s: State, a: Action, c: nat)
    requires c < |s.lbs| && Tied(s.lbs[c]) && Enabled(s, a)
    ensures c < |Apply(s, a).lbs|
    ensures Tied(Apply(s, a).lbs[c]) <==> !Unties(s, a, c)
  {
    if OnPlaces(a) {
      PlacesKeepLbs(s, a);
    } else {
      StepOnOneLb(s, a);
      if a.c == c {
        TiedLb(s, a);
      }
      hide Apply, MayPick, Tied, LbAfter, Enabled;
    }
  }

  ghost predicate TiedAfter(s: State, run: seq<Action>, k: nat, c: nat) {
    k <= |run| && IsRun(s, run[..k]) && c < |After(s, run[..k]).lbs| && Tied(After(s, run[..k]).lbs[c])
  }

  ghost predicate UntiedAt(s: State, run: seq<Action>, k: nat, c: nat) {
    k < |run| && IsRun(s, run[..k]) && Unties(After(s, run[..k]), run[k], c)
  }

  lemma LastTies(s: State, run: seq<Action>, c: nat)
    requires IsRun(s, run) && run != [] && TiedAfter(s, run, |run| - 1, c)
    ensures TiedAfter(s, run, |run|, c) <==> !UntiedAt(s, run, |run| - 1, c)
  {
    hide Tied, Unties, Enabled, Apply;
    assert run[..|run|] == run;
    TiedStep(After(s, run[..|run| - 1]), run[|run| - 1], c);
  }

  ghost predicate TiedAlong(s: State, run: seq<Action>, c: nat) {
    forall k :: 0 <= k <= |run| ==> TiedAfter(s, run, k, c)
  }

  ghost predicate NeverUntied(s: State, run: seq<Action>, c: nat) {
    forall k :: 0 <= k < |run| ==> !UntiedAt(s, run, k, c)
  }

  lemma TiedSplit(s: State, run: seq<Action>, c: nat)
    requires run != []
    ensures TiedAlong(s, run, c) <==> TiedAlong(s, run[..|run| - 1], c) && TiedAfter(s, run, |run|, c)
    ensures TiedAlong(s, run[..|run| - 1], c) ==> TiedAfter(s, run, |run| - 1, c)
  {
    var front := run[..|run| - 1];
    forall k | 0 <= k <= |front|
      ensures TiedAfter(s, front, k, c) == TiedAfter(s, run, k, c)
    {
      assert front[..k] == run[..k];
    }
    hide TiedAfter;
  }

  lemma UntiedSplit(s: State, run: seq<Action>, c: nat)
    requires run != []
    ensures NeverUntied(s, run, c) <==> NeverUntied(s, run[..|run| - 1], c) && !UntiedAt(s, run, |run| - 1, c)
  {
    var front := run[..|run| - 1];
    forall k | 0 <= k < |front|
      ensures UntiedAt(s, front, k, c) == UntiedAt(s, run, k, c)
    {
      assert front[..k] == run[..k];
    }
    hide UntiedAt;
  }

  /** Over all runs, late recordings included: a run queue has one stop work exactly while its flag is
      set, and that stop work the recorded target, after every step, if and only if no step unties
      them. */
  lemma {:induction false} TiedExactly(s: State, run: seq<Action>, c: nat)
    requires IsInit(s) && IsRun(s, run) && c < |s.lbs|
    ensures TiedAlong(s, run, c) <==> NeverUntied(s, run, c)
  {
    if run != [] {
      TiedExactly(s, run[..|run| - 1], c);
      hide TiedAlong, NeverUntied, TiedAfter, UntiedAt, IsRun, IsInit;
      TiedSplit(s, run, c);
      UntiedSplit(s, run, c);
      if TiedAfter(s, run, |run| - 1, c) {
        LastTies(s, run, c);
      }
    }
  }

  lemma RunExtends(s: State, run: seq<Action>, a: Action)
    requires IsRun(s, run) && Enabled(After(s, run), a)
    ensures IsRun(s, run + [a]) && After(s, run + [a]) == Apply(After(s, run), a)
  {
  }

  /** A push request that was recorded and then found the irq_work pending elsewhere: nothing is on
      its way, and the CPU counts as claimed. */
  predicate Lost(b: Lb) {
    b.irqwbPid > 0 && b.irq.NoIrq? && forall i :: 0 <= i < |b.pending| ==> b.pending[i].kind.TickPull?
  }

  /** A lost request is never dropped, so its CPU is never again claimed for a push. */
  lemma LostStays(s: State, a: Action, c: nat)
    requires c < |s.lbs| && Lost(s.lbs[c]) && Enabled(s, a) && Atomic(a)
    ensures c < |Apply(s, a).lbs| && Lost(Apply(s, a).lbs[c])
    ensures !(a.RecordPush? && a.c == c)
  {
    LostLb(s.lbs[c], a);
  }

  lemma LostLb(b: Lb, a: Action)
    requires Lost(b)
    ensures a.KickFrom? ==> Lost(Kick(b, a.d, a.t, a.ux))
    ensures a.SubmitWork? && a.i < |b.pending| ==> Lost(Submit(b, a.i))
    ensures a.StartWork? && a.i < |b.pending| ==> Lost(Start(b, a.i))
    ensures a.FinishTick? && a.i < |b.pending| ==> Lost(EndTick(b, a.i))
  {
  }

  /** No step on the record of a run queue other than a refused post loses its request. */
  lemma NotLostLb(s: State, a: Action)
    requires Enabled(s, a) && Atomic(a) && !OnPlaces(a) && LbOk(s.lbs[a.c], a.c, |s.lbs|) && !Lost(s.lbs[a.c])
    ensures Lost(LbAfter(s, a)) <==> a.Post? && s.irqWork >= 0
  {
    hide MayPick;
    var b, v := s.lbs[a.c], LbAfter(s, a);
    if a.SubmitWork? || a.StartWork? {
      assert |b.pending| == |v.pending| == 1 && v.pending[0].kind == b.pending[0].kind;
    } else if a.DecideIrq? && v.irq.NoIrq? {
      assert v.pending[|b.pending|].kind.IrqPush?;
    }
  }

  /** A step loses a request exactly if it posts it while the irq_work is pending. */
  lemma LostStep(s: State, a: Action, c: nat)
    requires FlagsInv(s) && Enabled(s, a) && Atomic(a) && c < |s.lbs| && !Lost(s.lbs[c])
    ensures c < |Apply(s, a).lbs|
    ensures Lost(Apply(s, a).lbs[c]) <==> a == Post(c) && s.irqWork >= 0
  {
    if OnPlaces(a) {
      PlacesKeepLbs(s, a);
    } else {
      StepOnOneLb(s, a);
      LbAt(s, c);
      if a.c == c {
        NotLostLb(s, a);
      }
      hide Apply, Enabled, Lost, FlagsInv, LbAfter;
    }
  }

  ghost predicate RefusedAt(s: State, run: seq<Action>, k: nat, c: nat) {
    k < |run| && run[k] == Post(c) && IsRun(s, run[..k]) && After(s, run[..k]).irqWork >= 0
  }

  /** Over every run of atomically recorded requests: a push request of a run queue is lost in the end
      if and only if some post for it met the irq_work pending. */
  lemma {:induction false} LostExactly(s: State, run: seq<Action>, c: nat)
    requires IsInit(s) && IsRun(s, run) && (forall k :: 0 <= k < |run| ==> Atomic(run[k])) && c < |s.lbs|
    ensures FlagsInv(After(s, run)) && c < |After(s, run).lbs|
    ensures Lost(After(s, run).lbs[c]) <==> exists k :: 0 <= k < |run| && RefusedAt(s, run, k, c)
  {
    if run == [] {
      InitFlags(s);
    } else {
      hide Enabled, Apply, FlagsInv, IsInit, Lost;
      var front, a := run[..|run| - 1], run[|run| - 1];
      assert forall k :: 0 <= k <= |front| ==> front[..k] == run[..k];
      LostExactly(s, front, c);
      assert forall k :: 0 <= k < |front| ==> RefusedAt(s, front, k, c) == RefusedAt(s, run, k, c);
      var u := After(s, front);
      FlagsStep(u, a);
      if Lost(u.lbs[c]) {
        LostStays(u, a, c);
      } else {
        LostStep(u, a, c);
        assert RefusedAt(s, run, |front|, c) <==> a == Post(c) && u.irqWork >= 0;
      }
    }
  }

  lemma Grow(s: State, run: seq<Action>, u: State, a: Action) returns (longer: seq<Action>, v: State)
    requires IsRun(s, run) && After(s, run) == u && Enabled(u, a)
    ensures IsRun(s, longer) && After(s, longer) == v == Apply(u, a)
    ensures longer == run + [a]
  {
    RunExtends(s, run, a);
    longer, v := run + [a], Apply(u, a);
  }

  /** Where a push may start: an idle CPU with a task that may move to another. */
  predicate CanPush(s: State, c: nat, d: nat, t: nat) {
    && |s.rqs| == |s.lbs| && c < |s.lbs| && d < |s.lbs| && c != d
    && RunsOn(s, t, c) && CanMigrate(s.tasks[t], d)
    && s.lbs[c] == IDLE && s.rqs[c].stopper.Empty?
  }

  lemma Nothing(s: State) returns (run: seq<Action>, u: State)
    ensures run == [] && IsRun(s, run) && After(s, run) == u == s
  {
    run, u := [], s;
  }

  lemma GrowTied(s: State, run: seq<Action>, u: State, a: Action, c: nat) returns (longer: seq<Action>, v: State)
    requires IsRun(s, run) && After(s, run) == u && Enabled(u, a) && TiedAlong(s, run, c) && c < |u.lbs|
    requires !Unties(u, a, c)
    ensures IsRun(s, longer) && After(s, longer) == v == Apply(u, a)
    ensures longer == run + [a] && TiedAlong(s, longer, c) && c < |v.lbs|
    ensures CarefulAlong(s, longer) ==> Careful(u, a) && CarefulAlong(s, run)
  {
    hide Enabled, Unties, Apply, Tied, Careful, TiedAlong, CarefulAlong;
    longer, v := Grow(s, run, u, a);
    SameCpus(u, a);
    assert longer[..|longer| - 1] == run;
    TiedSplit(s, longer, c);
    LastTies(s, longer, c);
    CarefulSplit(s, longer);
  }

  lemma NothingTied(s: State, c: nat, d: nat, t: nat)
    requires CanPush(s, c, d, t)
    ensures TiedAlong(s, [], c)
    ensures |s.rqs| == |s.lbs| && c < |s.lbs| && d < |s.lbs| && c != d
    ensures RunsOn(s, t, c) && CanMigrate(s.tasks[t], d) && s.lbs[c] == IDLE && s.rqs[c].stopper.Empty?
  {
  }

  lemma StartPush(s: State, c: nat, d: nat, t: nat) returns (run: seq<Action>, u: State)
    requires CanPush(s, c, d, t) && s.irqWork < 0
    ensures IsRun(s, run) && After(s, run) == u && TiedAlong(s, run, c)
    ensures u.tasks == s.tasks && u.rqs == s.rqs && |u.lbs| == |s.lbs| && u.irqWork < 0
    ensures u.lbs[c] == IDLE.(active := true, irqwbPid := Pid(t), irqwbPush := d, pending := [Work(IrqPush, Requested)])
  {
    hide IsRun, After, CanMigrate, TiedAlong, CarefulAlong, CanPush;
    run, u := Nothing(s);
    NothingTied(s, c, d, t);
    run, u := GrowTied(s, run, u, RecordPush(c, d, t), c);
    run, u := GrowTied(s, run, u, Post(c), c);
    run, u := GrowTied(s, run, u, Enter(c), c);
    run, u := GrowTied(s, run, u, DecideIrq(c, true), c);
  }

  /** Careful recording is more than the flag's meaning needs: a run that records a push late, for the
      same target, over one under way, and ends with everything tied all along and the flag clear. */
  lemma LateRecordCanBeHarmless(s: State, c: nat, d: nat, t: nat) returns (run: seq<Action>)
    requires CanPush(s, c, d, t) && s.irqWork < 0
    ensures IsRun(s, run) && TiedAlong(s, run, c) && !CarefulAlong(s, run)
    ensures c < |After(s, run).lbs| && !After(s, run).lbs[c].active
  {
    hide IsRun, After, CanMigrate, TiedAlong, CarefulAlong, Unties;
    var u;
    run, u := StartPush(s, c, d, t);
    run, u := RecordAgain(s, run, u, c, d, t);
    run, u := FinishTied(s, run, u, c, d);
  }

  lemma RecordAgain(s: State, run0: seq<Action>, u0: State, c: nat, d: nat, t: nat) returns (run: seq<Action>, u: State)
    requires IsRun(s, run0) && After(s, run0) == u0 && TiedAlong(s, run0, c)
    requires c < |u0.lbs| && d < |u0.lbs| && c != d && RunsOn(u0, t, c) && CanMigrate(u0.tasks[t], d)
    requires u0.lbs[c].irq.NoIrq? && u0.lbs[c].pending == [Work(IrqPush, Requested)]
    ensures IsRun(s, run) && After(s, run) == u && TiedAlong(s, run, c) && !CarefulAlong(s, run)
    ensures u.rqs == u0.rqs && |u.lbs| == |u0.lbs| && u.lbs[c] == Record(u0.lbs[c], d, t)
  {
    hide IsRun, After, CanMigrate, TiedAlong, CarefulAlong;
    run, u := GrowTied(s, run0, u0, LateRecord(c, d, t), c);
  }

  lemma FinishTied(s: State, run0: seq<Action>, u0: State, c: nat, d: nat) returns (run: seq<Action>, u: State)
    requires IsRun(s, run0) && After(s, run0) == u0 && TiedAlong(s, run0, c) && !CarefulAlong(s, run0)
    requires c < |u0.lbs| == |u0.rqs| && d < |u0.lbs| && u0.rqs[c].stopper.Empty?
    requires u0.lbs[c].pending == [Work(IrqPush, Requested)] && u0.lbs[c].irqwbPush == d
    ensures IsRun(s, run) && After(s, run) == u && TiedAlong(s, run, c) && !CarefulAlong(s, run)
    ensures c < |u.lbs| && !u.lbs[c].active
  {
    hide IsRun, After, CanMigrate, TiedAlong, CarefulAlong;
    run, u := GrowTied(s, run0, u0, SubmitWork(c, 0), c);
    run, u := GrowTied(s, run, u, StartWork(c, 0), c);
    run, u := GrowTied(s, run, u, FinishPush(c, 0, INVALID), c);
  }

  /** The atomicity that the flag's meaning rests on is needed: one recorder that looked too early
      lets the handler of its request wipe the target of the stopper already under way, which then
      leaves without clearing the flag. */
  lemma LateRecorderSticks(s: State, c: nat, d: nat, t: nat) returns (run: seq<Action>)
    requires CanPush(s, c, d, t) && s.irqWork < 0
    ensures IsRun(s, run) && c < |After(s, run).lbs| && Stuck(After(s, run).lbs[c])
  {
    hide IsRun, After, CanMigrate;
    var u;
    run, u := StartPush(s, c, d, t);
    run, u := WipeRequest(s, run, u, c, d, t);
    run, u := FinishWiped(s, run, u, c);
  }

  lemma WipeRequest(s: State, run0: seq<Action>, u0: State, c: nat, d: nat, t: nat) returns (run: seq<Action>, u: State)
    requires IsRun(s, run0) && After(s, run0) == u0 && u0.irqWork < 0
    requires c < |u0.lbs| && d < |u0.lbs| && c != d && RunsOn(u0, t, c) && CanMigrate(u0.tasks[t], d)
    requires u0.lbs[c].active && u0.lbs[c].irq.NoIrq?
    ensures IsRun(s, run) && After(s, run) == u
    ensures u.rqs == u0.rqs && |u.lbs| == |u0.lbs|
    ensures u.lbs[c] == u0.lbs[c].(irqwbPid := INVALID, irqwbPush := INVALID)
  {
    hide IsRun, After, CanMigrate;
    run, u := Grow(s, run0, u0, LateRecord(c, d, t));
    run, u := Grow(s, run, u, Post(c));
    run, u := Grow(s, run, u, Enter(c));
    run, u := Grow(s, run, u, DecideIrq(c, true));
    run, u := Grow(s, run, u, GiveUpIrq(c));
  }

  lemma FinishWiped(s: State, run0: seq<Action>, u0: State, c: nat) returns (run: seq<Action>, u: State)
    requires IsRun(s, run0) && After(s, run0) == u0
    requires c < |u0.lbs| == |u0.rqs| && u0.rqs[c].stopper.Empty? && u0.lbs[c].active
    requires u0.lbs[c].pending == [Work(IrqPush, Requested)] && u0.lbs[c].irqwbPush == INVALID
    ensures IsRun(s, run) && After(s, run) == u && c < |u.lbs| && Stuck(u.lbs[c])
  {
    hide IsRun, After, CanMigrate;
    run, u := Grow(s, run0, u0, SubmitWork(c, 0));
    run, u := Grow(s, run, u, StartWork(c, 0));
    run, u := Grow(s, run, u, FinishPush(c, 0, INVALID));
  }

  /** Two pushes at once lose one for good, even when each is recorded atomically: all CPUs share one
      irq_work, and queueing it while it is pending for another CPU does nothing. */
  lemma SecondPushIsLost(s: State, c: nat, d: nat, t: nat, c2: nat, d2: nat, t2: nat) returns (run: seq<Action>)
    requires CanPush(s, c, d, t) && CanPush(s, c2, d2, t2) && c != c2 && s.irqWork < 0
    ensures IsRun(s, run) && (forall i :: 0 <= i < |run| ==> Atomic(run[i]))
    ensures c2 < |After(s, run).lbs| && Lost(After(s, run).lbs[c2])
  {
    hide IsRun, After, CanMigrate;
    var u;
    run, u := PostPush(s, c, d, t);
    run, u := Grow(s, run, u, RecordPush(c2, d2, t2));
    run, u := Grow(s, run, u, Post(c2));
  }

  lemma PostPush(s: State, c: nat, d: nat, t: nat) returns (run: seq<Action>, u: State)
    requires CanPush(s, c, d, t) && s.irqWork < 0
    ensures IsRun(s, run) && After(s, run) == u && forall i :: 0 <= i < |run| ==> Atomic(run[i])
    ensures u.tasks == s.tasks && u.rqs == s.rqs && |u.lbs| == |s.lbs| && u.irqWork == c
    ensures forall e :: 0 <= e < |s.lbs| && e != c ==> u.lbs[e] == s.lbs[e]
  {
    hide IsRun, After, CanMigrate;
    run, u := Nothing(s);
    run, u := Grow(s, run, u, RecordPush(c, d, t));
    run, u := Grow(s, run, u, Post(c));
  }

  // ---------------------------------------------------------------- the functions themselves

  /** The balancing fields of one run queue, as the kick, the handler and the stoppers write them;
      `irq` and `pending` follow along. */
  class BalanceRq {
    var activeBalance: bool
    var pushCpu: int
    var lbPid: int
    var migType: MigType
    var irqwbPid: int
    var irqwbPushCpu: int
    ghost var irq: Irq
    ghost var pending: seq<Work>

    ghost function Value(): Lb
      reads this
    {
      Lb(activeBalance, pushCpu, lbPid, migType, irqwbPid, irqwbPushCpu, irq, pending)
    }

    constructor ()
      ensures Value() == IDLE
    {
      activeBalance, pushCpu, lbPid, migType := false, INVALID, INVALID, NoType;
      irqwbPid, irqwbPushCpu := INVALID, INVALID;
      irq, pending := NoIrq, [];
    }

    method TransKickActiveBalance(p: nat, newCpu: nat, ux: bool) returns (ret: bool)
      modifies this
      ensures ret <==> !old(activeBalance)
      ensures Value() == Kick(old(Value()), newCpu, p, ux)
    {
      ret := false;
      if !activeBalance {
        activeBalance := true;
        pushCpu := newCpu;
        lbPid := Pid(p);
        migType := if ux then MigUx else MigRt;
        pending := pending + [Work(TickPull, Requested)];
        ret := true;
      }
    }

    /** `irqwb_workfn` from where it has read its target; `worth` is the outcome of the trigger
        conditions other than the flag. */
    method IrqwbWorkfn(target: int, cpus: nat, worth: bool) returns (ret: bool)
      requires irq == Entered(target)
      modifies this
      ensures ret <==> 0 <= target < cpus && worth && !old(activeBalance)
      ensures var v := Decide(old(Value()), worth, 0 <= target < cpus); Value() == if ret then v else GiveUp(v)
    {
      ret := false;
      if 0 <= target < cpus {
        if worth && !activeBalance {
          activeBalance := true;
          pending := pending + [Work(IrqPush, Requested)];
          ret := true;
        }
      }
      irq := NoIrq;
      if !ret {
        irqwbPid := INVALID;
        irqwbPushCpu := INVALID;
      }
    }

    /** `trans_active_load_balance_cpu_stop` up to the unlock. `queue` is the list of its kind that it
        scans, last scanned first (CFS tasks in order, pushable RT tasks in reverse); `ready` and `fit`
        say of each task whether it may be looked at, and whether it will do instead of the recorded one. */
    method TickStop(ghost i: nat, queue: seq<nat>, tasks: seq<Task>, ready: seq<bool>, fit: seq<bool>, running: nat)
      returns (picked: int)
      requires i < |pending| && pending[i] == Work(TickPull, Started(pushCpu))
      requires |ready| == |tasks| == |fit| && forall k :: 0 <= k < |queue| ==> queue[k] < |tasks|
      modifies this
      ensures Value() == EndTick(old(Value()), i)
      ensures picked ==
                if old(activeBalance) && running > 1 && old(migType) != NoType
                then Preferred(queue, tasks, ready, fit, old(lbPid), old(pushCpu)) else INVALID
      ensures picked != INVALID ==>
                0 <= picked < |tasks| && picked in queue && CanMigrate(tasks[picked], old(pushCpu)) && ready[picked]
    {
      picked := INVALID;
      if activeBalance && running > 1 {
        if migType != NoType {
          picked := DetachRunning(queue, tasks, ready, fit, lbPid, pushCpu);
        }
      }
      lbPid := INVALID;
      migType := NoType;
      activeBalance := false;
      pending := Without(pending, i);
    }

    /** `irqwb_cpu_stop_migrate` up to the unlock: UX tasks first, then RT tasks; `busy` says that the
        target has urgent tasks of its own by now. */
    method PushStop(ghost i: nat, cpus: nat, cfs: seq<nat>, rt: seq<nat>, tasks: seq<Task>, ready: seq<bool>,
                    ux: seq<bool>, sf: seq<bool>, running: nat, busy: bool)
      returns (picked: int)
      requires i < |pending| && pending[i] == Work(IrqPush, Started(irqwbPushCpu))
      requires |ready| == |tasks| == |ux| == |sf|
      requires (forall k :: 0 <= k < |cfs| ==> cfs[k] < |tasks|) && forall k :: 0 <= k < |rt| ==> rt[k] < |tasks|
      modifies this
      ensures Value() == EndPush(old(Value()), i, 0 <= old(irqwbPushCpu) < cpus)
      ensures picked ==
                if 0 <= old(irqwbPushCpu) < cpus && !busy && old(activeBalance) && running > 1 then
                  var first := Preferred(cfs, tasks, ready, ux, old(irqwbPid), old(irqwbPushCpu));
                  if first != INVALID then first
                  else Preferred(rt, tasks, ready, sf, old(irqwbPid), old(irqwbPushCpu))
                else INVALID
      ensures picked != INVALID ==>
                && 0 <= picked < |tasks| && (picked in cfs || picked in rt)
                && CanMigrate(tasks[picked], old(irqwbPushCpu)) && ready[picked]
    {
      picked := INVALID;
      if !(0 <= irqwbPushCpu < cpus) {
        pending := Without(pending, i);
        return;
      }
      if !busy && activeBalance && running > 1 {
        picked := DetachRunning(cfs, tasks, ready, ux, irqwbPid, irqwbPushCpu);
        if picked == INVALID {
          picked := DetachRunning(rt, tasks, ready, sf, irqwbPid, irqwbPushCpu);
        }
      }
      irqwbPid := INVALID;
      irqwbPushCpu := INVALID;
      activeBalance := false;
      pending := Without(pending, i);
    }
  }

  predicate Candidate(t: nat, tasks: seq<Task>, ready: seq<bool>, c: int)
    requires t < |tasks| == |ready|
  {
    ready[t] && CanMigrate(tasks[t], c)
  }

  /** The recorded task if it may go, else the last of the list that is of the right kind and may. */
  function Preferred(queue: seq<nat>, tasks: seq<Task>, ready: seq<bool>, fit: seq<bool>, pid: int, c: int): int
    requires |ready| == |tasks| == |fit| && forall k :: 0 <= k < |queue| ==> queue[k] < |tasks|
  {
    if exists k :: 0 <= k < |queue| && Pid(queue[k]) == pid && Candidate(queue[k], tasks, ready, c) then pid - 1
    else Fallback(queue, tasks, ready, fit, pid, c)
  }

  function Fallback(queue: seq<nat>, tasks: seq<Task>, ready: seq<bool>, fit: seq<bool>, pid: int, c: int): int
    requires |ready| == |tasks| == |fit| && forall k :: 0 <= k < |queue| ==> queue[k] < |tasks|
  {
    if queue == [] then INVALID
    else
      var t := queue[|queue| - 1];
      if Pid(t) != pid && fit[t] && Candidate(t, tasks, ready, c) then t
      else Fallback(queue[..|queue| - 1], tasks, ready, fit, pid, c)
  }

  /** A task that may be looked at and may move to `c`. */
  predicate MayGo(t: nat, tasks: seq<Task>, ready: seq<bool>, c: int)
    requires t < |tasks| == |ready|
  {
    var k := tasks[t];
    ready[t] && !k.perCpu && !k.pinned && c >= 0 && c in k.mask && c in k.ptr
  }

  /** Which task is picked: the recorded one if it is listed and may go; else, of the others of the right
      kind that may go, the one listed last; else none. */
  lemma {:induction false} PreferredIs(queue: seq<nat>, tasks: seq<Task>, ready: seq<bool>, fit: seq<bool>, pid: int,
                                       c: int) returns (k: int)
    requires |ready| == |tasks| == |fit| && forall j :: 0 <= j < |queue| ==> queue[j] < |tasks|
    ensures -1 <= k < |queue|
    ensures Preferred(queue, tasks, ready, fit, pid, c) == if k == -1 then -1 else queue[k]
    ensures k >= 0 ==> MayGo(queue[k], tasks, ready, c) && (queue[k] + 1 == pid || fit[queue[k]])
    ensures forall j :: 0 <= j < |queue| && queue[j] + 1 == pid && MayGo(queue[j], tasks, ready, c) ==>
              k >= 0 && queue[k] + 1 == pid
    ensures forall j :: k < j < |queue| && queue[j] + 1 != pid && fit[queue[j]] && MayGo(queue[j], tasks, ready, c) ==>
              k >= 0 && queue[k] + 1 == pid
  {
    if j :| 0 <= j < |queue| && Pid(queue[j]) == pid && Candidate(queue[j], tasks, ready, c) {
      k := j;
    } else {
      k := FallbackIs(queue, tasks, ready, fit, pid, c);
    }
  }

  lemma {:induction false} FallbackIs(queue: seq<nat>, tasks: seq<Task>, ready: seq<bool>, fit: seq<bool>, pid: int,
                                      c: int) returns (k: int)
    requires |ready| == |tasks| == |fit| && forall j :: 0 <= j < |queue| ==> queue[j] < |tasks|
    ensures -1 <= k < |queue|
    ensures Fallback(queue, tasks, ready, fit, pid, c) == if k == -1 then -1 else queue[k]
    ensures k >= 0 ==> queue[k] + 1 != pid && fit[queue[k]] && MayGo(queue[k], tasks, ready, c)
    ensures forall j :: k < j < |queue| ==>
              !(queue[j] + 1 != pid && fit[queue[j]] && MayGo(queue[j], tasks, ready, c))
  {
    if queue == [] {
      k := -1;
    } else {
      var t := queue[|queue| - 1];
      if Pid(t) != pid && fit[t] && Candidate(t, tasks, ready, c) {
        k := |queue| - 1;
      } else {
        k := FallbackIs(queue[..|queue| - 1], tasks, ready, fit, pid, c);
      }
    }
  }

  /** A kick on a clear flag records where to and whom, and the stopper then picks that task if it may go
      by then; on a set flag it changes nothing. */
  lemma KickedIsPicked(b: Lb, d: nat, t: nat, ux: bool, queue: seq<nat>, tasks: seq<Task>, ready: seq<bool>,
                       fit: seq<bool>)
    requires |ready| == |tasks| == |fit| && forall j :: 0 <= j < |queue| ==> queue[j] < |tasks|
    ensures var r := Kick(b, d, t, ux);
            if b.active then r == b
            else
              && r.active && r.pushCpu == d && r.migType == (if ux then MigUx else MigRt)
              && r.pending == b.pending + [Work(TickPull, Requested)]
              && (r.irqwbPid, r.irqwbPush, r.irq) == (b.irqwbPid, b.irqwbPush, b.irq)
              && (t in queue && MayGo(t, tasks, ready, d) ==>
                    Preferred(queue, tasks, ready, fit, r.lbPid, r.pushCpu) == t)
  {
    if t in queue && MayGo(t, tasks, ready, d) {
      var j :| 0 <= j < |queue| && queue[j] == t;
      assert Pid(queue[j]) == Pid(t) && Candidate(queue[j], tasks, ready, d);
    }
  }

  /** The same for a recorded push, which leaves the flag and the tick pull alone. */
  lemma RecordedIsPicked(b: Lb, d: nat, t: nat, queue: seq<nat>, tasks: seq<Task>, ready: seq<bool>, fit: seq<bool>)
    requires |ready| == |tasks| == |fit| && forall j :: 0 <= j < |queue| ==> queue[j] < |tasks|
    ensures var r := Record(b, d, t);
            && r == b.(irqwbPid := r.irqwbPid, irqwbPush := d, irq := Recorded) && r.irqwbPid > 0
            && (t in queue && MayGo(t, tasks, ready, d) ==>
                  Preferred(queue, tasks, ready, fit, r.irqwbPid, r.irqwbPush) == t)
  {
    if t in queue && MayGo(t, tasks, ready, d) {
      var j :| 0 <= j < |queue| && queue[j] == t;
      assert Pid(queue[j]) == Pid(t) && Candidate(queue[j], tasks, ready, d);
    }
  }

  /** The handler starts a push, with one stop work and the flag, exactly if its target is valid, a push is
      worth it and the flag is clear; otherwise it fails. It leaves the requests as they are. */
  lemma DecideStarts(b: Lb, worth: bool, valid: bool)
    ensures var r, starts := Decide(b, worth, valid), valid && worth && !b.active;
            && (r.active <==> b.active || starts)
            && r.pending == b.pending + (if starts then [Work(IrqPush, Requested)] else [])
            && r.irq == (if starts then NoIrq else Failing)
            && (r.pushCpu, r.lbPid, r.migType, r.irqwbPid, r.irqwbPush)
               == (b.pushCpu, b.lbPid, b.migType, b.irqwbPid, b.irqwbPush)
  {
  }

  /** What the end of a request leaves: a tick pull and a push with a target clear their own request and
      the flag, a push without one clears nothing, and a push given up forgets its request and no
      more. */
  lemma EndsClear(b: Lb, i: nat)
    requires i < |b.pending|
    ensures var r := EndTick(b, i);
            && !r.active && r.lbPid < 0 && r.migType == NoType
            && (r.pushCpu, r.irqwbPid, r.irqwbPush, r.irq) == (b.pushCpu, b.irqwbPid, b.irqwbPush, b.irq)
    ensures var r := EndPush(b, i, true);
            && !r.active && r.irqwbPid < 0 && r.irqwbPush < 0
            && (r.pushCpu, r.lbPid, r.migType, r.irq) == (b.pushCpu, b.lbPid, b.migType, b.irq)
    ensures EndPush(b, i, false) == b.(pending := EndTick(b, i).pending)
    ensures var r := GiveUp(b); r.irqwbPid < 0 && r.irqwbPush < 0 && r.irq == NoIrq && r.pending == b.pending
    ensures EndPush(b, i, true).pending == EndTick(b, i).pending == b.pending[..i] + b.pending[i + 1..]
  {
  }

  /** `__detach_running_ux`: one walk from the tail, looking for the recorded task and keeping the
      first other that would do. */
  method DetachRunning(queue: seq<nat>, tasks: seq<Task>, ready: seq<bool>, fit: seq<bool>, pid: int, c: int)
    returns (picked: int)
    requires |ready| == |tasks| == |fit| && forall k :: 0 <= k < |queue| ==> queue[k] < |tasks|
    ensures picked == Preferred(queue, tasks, ready, fit, pid, c)
    ensures picked != INVALID ==>
              0 <= picked < |tasks| && picked in queue && CanMigrate(tasks[picked], c) && ready[picked]
  {
    var fallback := INVALID;
    var k := |queue|;
    assert queue[..k] == queue;
    while k > 0
      invariant 0 <= k <= |queue|
      invariant forall j :: k <= j < |queue| ==> !(Pid(queue[j]) == pid && Candidate(queue[j], tasks, ready, c))
      invariant fallback != INVALID ==>
                  0 <= fallback < |tasks| && fallback in queue && CanMigrate(tasks[fallback], c) && ready[fallback]
      invariant Fallback(queue, tasks, ready, fit, pid, c) ==
                  if fallback != INVALID then fallback else Fallback(queue[..k], tasks, ready, fit, pid, c)
    {
      k := k - 1;
      var t := queue[k];
      assert queue[..k + 1][..k] == queue[..k];
      if !ready[t] {
        continue;
      }
      if Pid(t) == pid {
        if CanMigrate(tasks[t], c) {
          return t;
        }
        continue;
      }
      if fallback == INVALID && fit[t] && CanMigrate(tasks[t], c) {
        fallback := t;
      }
    }
    return fallback;
  }
}
