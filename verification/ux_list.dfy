/** The run lists of UX tasks: one ordered list per CPU, each holding a reference on every task it
    links, and six code paths that link and unlink. */
module UxList {

  const UX_RUN_SLICE := 4000000

  /** A task as far as the lists go. `on` is the CPU whose list links it, or -1 (a free node);
      `held` counts the references of all other parties, `stamp` says when it was last inserted. */
  datatype Rec = Rec(prio: nat, refs: int, on: int, totalRun: nat, sumExec: nat, held: nat, stamp: nat)

  datatype State = State(recs: seq<Rec>, lists: seq<seq<nat>>, clock: nat)

  // ---------------------------------------------------------------- one list

  ghost predicate Known(l: seq<nat>, recs: seq<Rec>) {
    forall i :: 0 <= i < |l| ==> l[i] < |recs|
  }

  function Place(l: seq<nat>, recs: seq<Rec>, p: nat): (k: nat)
    requires Known(l, recs)
    ensures k <= |l|
    ensures forall i :: 0 <= i < k ==> recs[l[i]].prio >= p
    ensures k < |l| ==> p > recs[l[k]].prio
  {
    if l == [] || p > recs[l[0]].prio then 0 else 1 + Place(l[1..], recs, p)
  }

  /** Before the first task of lower priority, behind all equals. */
  function Insert(l: seq<nat>, recs: seq<Rec>, t: nat): seq<nat>
    requires Known(l, recs) && t < |recs|
  {
    var k := Place(l, recs, recs[t].prio);
    l[..k] + [t] + l[k..]
  }

  function Remove(l: seq<nat>, t: nat): (r: seq<nat>)
    ensures forall u :: u in r ==> u in l
    ensures forall i :: 0 <= i < |r| ==> r[i] in l
  {
    if l == [] then [] else if l[0] == t then l[1..] else [l[0]] + Remove(l[1..], t)
  }

  ghost predicate Distinct(l: seq<nat>) {
    forall i, j :: 0 <= i < j < |l| ==> l[i] != l[j]
  }

  lemma {:induction false} RemoveMembers(l: seq<nat>, t: nat)
    requires Distinct(l)
    ensures Distinct(Remove(l, t)) && forall u :: u in Remove(l, t) <==> u in l && u != t
  {
    if l != [] && l[0] != t {
      RemoveMembers(l[1..], t);
      assert l[0] !in l[1..] && l == [l[0]] + l[1..];
      ConsDistinct(l[0], Remove(l[1..], t));
    }
  }

  lemma ConsDistinct(t: nat, l: seq<nat>)
    requires Distinct(l) && t !in l
    ensures Distinct([t] + l)
  {
  }

  lemma InsertMembers(l: seq<nat>, recs: seq<Rec>, t: nat)
    requires Known(l, recs) && t < |recs| && Distinct(l) && t !in l
    ensures Distinct(Insert(l, recs, t)) && forall u :: u in Insert(l, recs, t) <==> u in l || u == t
  {
  }

  /** Higher priority first; among equals, who was inserted first. */
  predicate Before(a: Rec, b: Rec) {
    a.prio > b.prio || (a.prio == b.prio && a.stamp < b.stamp)
  }

  ghost predicate Ordered(l: seq<nat>, recs: seq<Rec>)
    requires Known(l, recs)
  {
    forall i, j :: 0 <= i < j < |l| ==> Before(recs[l[i]], recs[l[j]])
  }

  lemma {:induction false} RemoveKeepsOrder(l: seq<nat>, recs: seq<Rec>, t: nat)
    requires Known(l, recs) && Ordered(l, recs)
    ensures Known(Remove(l, t), recs) && Ordered(Remove(l, t), recs)
  {
    if l != [] && l[0] != t {
      RemoveKeepsOrder(l[1..], recs, t);
      var r := Remove(l[1..], t);
      forall j | 0 <= j < |r|
        ensures Before(recs[l[0]], recs[r[j]])
      {
        assert r[j] in l[1..];
      }
    }
  }

  lemma InsertKeepsOrder(l: seq<nat>, recs: seq<Rec>, t: nat)
    requires Known(l, recs) && Ordered(l, recs) && t < |recs|
    requires forall i :: 0 <= i < |l| ==> recs[l[i]].stamp < recs[t].stamp
    ensures Known(Insert(l, recs, t), recs) && Ordered(Insert(l, recs, t), recs)
  {
    hide Place;
    var k := Place(l, recs, recs[t].prio);
    var r := Insert(l, recs, t);
    forall i, j | 0 <= i < j < |r|
      ensures Before(recs[r[i]], recs[r[j]])
    {
      assert r[i] == if i < k then l[i] else if i == k then t else l[i - 1];
      assert r[j] == if j < k then l[j] else if j == k then t else l[j - 1];
      if i == k && k < j - 1 {
        assert Before(recs[l[k]], recs[l[j - 1]]);
      }
    }
  }

  // ---------------------------------------------------------------- the six paths

  function Get(r: Rec): Rec {
    r.(refs := r.refs + 1)
  }

  function Put(r: Rec): Rec {
    r.(refs := r.refs - 1)
  }

  ghost predicate InRange(s: State, c: nat, t: nat) {
    c < |s.lists| && t < |s.recs| && forall d :: 0 <= d < |s.lists| ==> Known(s.lists[d], s.recs)
  }

  /** Insert a free node into the list of a CPU and take a reference. */
  function Link(s: State, c: nat, t: nat): State
    requires InRange(s, c, t)
  {
    var recs := s.recs[t := Get(s.recs[t]).(on := c, stamp := s.clock)];
    State(recs, s.lists[c := Insert(s.lists[c], recs, t)], s.clock + 1)
  }

  /** Delete a linked node, wherever it is, and put the reference. */
  function Unlink(s: State, t: nat): State
    requires t < |s.recs| && 0 <= s.recs[t].on < |s.lists|
  {
    State(s.recs[t := Put(s.recs[t]).(on := -1)], s.lists[s.recs[t].on := Remove(s.lists[s.recs[t].on], t)], s.clock)
  }

  function Linked(s: State, t: nat): bool
    requires t < |s.recs|
  {
    s.recs[t].on >= 0
  }

  /** `enqueue_ux_task`. */
  function Enqueue(s: State, c: nat, t: nat, isUx: bool, exec: nat): State
    requires InRange(s, c, t)
  {
    if !isUx || Linked(s, t) then s
    else
      var u := Link(s, c, t);
      if u.recs[t].totalRun == 0 then u.(recs := u.recs[t := u.recs[t].(sumExec := exec)]) else u
  }

  /** `dequeue_ux_task`, with what becomes of the tags given. */
  function Dequeue(s: State, t: nat, running: bool, unboost: bool): State
    requires t < |s.recs| && s.recs[t].on < |s.lists|
  {
    var u := if Linked(s, t)
             then var v := Unlink(s, t); (if unboost then v.(recs := v.recs[t := v.recs[t].(prio := 0)]) else v)
             else s;
    if running then u else u.(recs := u.recs[t := u.recs[t].(totalRun := 0)])
  }

  /** Run time since the last look at the task: `exec` at the last scheduling event and `extra` since. */
  function Delta(r: Rec, exec: nat, extra: nat): nat {
    if exec < r.sumExec then 0 else exec - r.sumExec + extra
  }

  function Requeue(s: State, c: nat, t: nat): State
    requires InRange(s, c, t) && 0 <= s.recs[t].on < |s.lists|
  {
    var v := s.(lists := s.lists[s.recs[t].on := Remove(s.lists[s.recs[t].on], t)],
                recs := s.recs[t := s.recs[t].(on := c, stamp := s.clock)]);
    v.(lists := v.lists[c := Insert(v.lists[c], v.recs, t)], clock := s.clock + 1)
  }

  function Charge(s: State, t: nat, delta: nat): State
    requires t < |s.recs|
  {
    s.(recs := s.recs[t := s.recs[t].(sumExec := s.recs[t].sumExec + delta, totalRun := s.recs[t].totalRun + delta)])
  }

  /** The tick of the running task (`update_ux_runtime`): time out, or move behind the equals. */
  function Tick(s: State, c: nat, t: nat, exec: nat, extra: nat, limit: nat): State
    requires InRange(s, c, t) && s.recs[t].on < |s.lists|
  {
    if !Linked(s, t) then s
    else
      var delta := Delta(s.recs[t], exec, extra);
      if delta < UX_RUN_SLICE then s
      else
        var u := Charge(s, t, delta);
        if u.recs[t].totalRun > limit then Unlink(u, t) else Requeue(u, c, t)
  }

  /** `set_ux_tags_to_task` and `set_ux_share`: new tags in place, and a free node of a runnable task
      is linked. */
  function SetPrio(s: State, c: nat, t: nat, prio: nat, runnable: bool, exec: nat): State
    requires InRange(s, c, t)
  {
    var u := s.(recs := s.recs[t := s.recs[t].(prio := prio)]);
    if runnable && !Linked(u, t) then
      var v := Link(u, c, t);
      if v.recs[t].totalRun == 0 then v.(recs := v.recs[t := v.recs[t].(sumExec := exec)]) else v
    else u
  }

  /** The end of `unset_ux_share`: a linked binder boost keeps its place until the next dequeue. */
  function UnsetShare(s: State, t: nat, binder: bool): State
    requires t < |s.recs| && s.recs[t].on < |s.lists|
  {
    if Linked(s, t) && binder then s
    else
      var u := if Linked(s, t) then Unlink(s, t) else s;
      u.(recs := u.recs[t := u.recs[t].(prio := 0)])
  }

  datatype Event =
    | DoEnqueue(c: nat, t: nat, isUx: bool, exec: nat)
    | DoDequeue(t: nat, running: bool, unboost: bool)
    | DoTick(c: nat, t: nat, exec: nat, extra: nat, limit: nat)
    | DoSetTags(c: nat, t: nat, prio: nat, runnable: bool, exec: nat)
    | DoSetShare(c: nat, t: nat, prio: nat, runnable: bool, exec: nat)
    | DoUnsetShare(t: nat, binder: bool)
    | OtherGet(t: nat)
    | OtherPut(t: nat)

  // ---------------------------------------------------------------- references

  predicate Balanced(r: Rec) {
    r.refs == r.held + if r.on >= 0 then 1 else 0
  }

  /** Each task is in at most one list, once, and then in the list its node says; the lists hold one
      reference each, no more. */
  ghost predicate Inv(s: State) {
    && (forall c :: 0 <= c < |s.lists| ==> Known(s.lists[c], s.recs) && Distinct(s.lists[c]))
    && (forall t :: 0 <= t < |s.recs| ==> Balanced(s.recs[t]) && s.recs[t].on < |s.lists|)
    && (forall c, t :: 0 <= c < |s.lists| && 0 <= t < |s.recs| ==> (t in s.lists[c] <==> s.recs[t].on == c))
  }

  lemma LinkKeepsInv(s: State, c: nat, t: nat)
    requires Inv(s) && InRange(s, c, t) && s.recs[t].on < 0
    ensures Inv(Link(s, c, t))
  {
    hide Insert;
    var u := Link(s, c, t);
    assert Known(s.lists[c], u.recs);
    InsertMembers(s.lists[c], u.recs, t);
    forall d | 0 <= d < |u.lists|
      ensures Known(u.lists[d], u.recs) && Distinct(u.lists[d])
    {
      assert d == c || u.lists[d] == s.lists[d];
      if d == c {
        AllKnown(u.lists[d], s.lists[d], t, u.recs);
      }
    }
    assert forall x :: 0 <= x < |u.recs| ==> Balanced(s.recs[x]) && s.recs[x].on < |s.lists|;
    forall d, x | 0 <= d < |u.lists| && 0 <= x < |u.recs|
      ensures x in u.lists[d] <==> u.recs[x].on == d
    {
      assert x in s.lists[d] <==> s.recs[x].on == d;
    }
  }

  lemma AllKnown(l: seq<nat>, was: seq<nat>, t: nat, recs: seq<Rec>)
    requires Known(was, recs) && t < |recs|
    requires forall u :: u in l ==> u in was || u == t
    ensures Known(l, recs)
  {
    forall i | 0 <= i < |l|
      ensures l[i] < |recs|
    {
      assert l[i] in l;
    }
  }

  lemma UnlinkKeepsInv(s: State, t: nat)
    requires Inv(s) && t < |s.recs| && s.recs[t].on >= 0
    ensures Inv(Unlink(s, t))
  {
    hide Remove;
    var u := Unlink(s, t);
    var c := s.recs[t].on;
    RemoveMembers(s.lists[c], t);
    AllKnown(u.lists[c], s.lists[c], t, u.recs);
    forall d | 0 <= d < |u.lists|
      ensures Known(u.lists[d], u.recs) && Distinct(u.lists[d])
    {
      assert d == c || u.lists[d] == s.lists[d];
    }
    assert forall x :: 0 <= x < |u.recs| ==> Balanced(s.recs[x]) && s.recs[x].on < |s.lists|;
    forall d, x | 0 <= d < |u.lists| && 0 <= x < |u.recs|
      ensures x in u.lists[d] <==> u.recs[x].on == d
    {
      assert x in s.lists[d] <==> s.recs[x].on == d;
    }
  }

  /** Moving a linked node is unlinking and linking it again: the reference stays. */
  lemma RequeueIsRelink(s: State, c: nat, t: nat)
    requires Inv(s) && c < |s.lists| && t < |s.recs| && s.recs[t].on >= 0
    ensures Inv(Unlink(s, t)) && InRange(Unlink(s, t), c, t)
    ensures Requeue(s, c, t) == Link(Unlink(s, t), c, t)
  {
    UnlinkKeepsInv(s, t);
    hide Insert, Remove;
    var v := Unlink(s, t);
    assert v.recs[t := Get(v.recs[t]).(on := c, stamp := s.clock)] ==
           s.recs[t := s.recs[t].(on := c, stamp := s.clock)];
  }

  ghost predicate Legal(s: State, e: Event) {
    match e
    case DoEnqueue(c, t, _, _) => c < |s.lists| && t < |s.recs| && s.recs[t].refs > 0
    case DoDequeue(t, _, _) => t < |s.recs| && s.recs[t].refs > 0
    case DoTick(c, t, _, _, _) => c < |s.lists| && t < |s.recs| && s.recs[t].refs > 0
    case DoSetTags(c, t, _, _, _) => c < |s.lists| && t < |s.recs| && s.recs[t].refs > 0
    case DoSetShare(c, t, _, _, _) => c < |s.lists| && t < |s.recs| && s.recs[t].refs > 0
    case DoUnsetShare(t, _) => t < |s.recs| && s.recs[t].refs > 0
    case OtherGet(t) => t < |s.recs| && s.recs[t].refs > 0
    case OtherPut(t) => t < |s.recs| && s.recs[t].held > 0
  }

  ghost function Step(s: State, e: Event): State
    requires Inv(s) && Legal(s, e)
  {
    match e
    case DoEnqueue(c, t, isUx, exec) => Enqueue(s, c, t, isUx, exec)
    case DoDequeue(t, running, unboost) => Dequeue(s, t, running, unboost)
    case DoTick(c, t, exec, extra, limit) => Tick(s, c, t, exec, extra, limit)
    case DoSetTags(c, t, prio, runnable, exec) => SetPrio(s, c, t, prio, runnable, exec)
    case DoSetShare(c, t, prio, runnable, exec) => SetPrio(s, c, t, prio, runnable, exec)
    case DoUnsetShare(t, binder) => UnsetShare(s, t, binder)
    case OtherGet(t) => s.(recs := s.recs[t := Get(s.recs[t]).(held := s.recs[t].held + 1)])
    case OtherPut(t) => s.(recs := s.recs[t := Put(s.recs[t]).(held := s.recs[t].held - 1)])
  }

  /** Changing what the lists do not depend on. */
  lemma RewriteKeepsInv(s: State, t: nat, r: Rec)
    requires Inv(s) && t < |s.recs| && Balanced(r) && r.on == s.recs[t].on
    ensures Inv(s.(recs := s.recs[t := r]))
  {
  }

  lemma EnqueueKeepsInv(s: State, c: nat, t: nat, isUx: bool, exec: nat)
    requires Inv(s) && c < |s.lists| && t < |s.recs|
    ensures Inv(Enqueue(s, c, t, isUx, exec))
  {
    if isUx && !Linked(s, t) {
      LinkKeepsInv(s, c, t);
      var u := Link(s, c, t);
      hide Inv, Insert;
      BalancedAt(s, t);
      RewriteKeepsInv(u, t, u.recs[t].(sumExec := exec));
    }
  }

  lemma BalancedAt(s: State, t: nat)
    requires Inv(s) && t < |s.recs|
    ensures Balanced(s.recs[t]) && s.recs[t].on < |s.lists|
  {
  }

  lemma DequeueKeepsInv(s: State, t: nat, running: bool, unboost: bool)
    requires Inv(s) && t < |s.recs|
    ensures Inv(Dequeue(s, t, running, unboost))
  {
    BalancedAt(s, t);
    if Linked(s, t) {
      UnlinkKeepsInv(s, t);
      var v := Unlink(s, t);
      hide Inv, Remove;
      RewriteKeepsInv(v, t, v.recs[t].(prio := 0));
      RewriteKeepsInv(v, t, v.recs[t].(totalRun := 0));
      RewriteKeepsInv(v, t, v.recs[t].(prio := 0, totalRun := 0));
    } else {
      hide Inv;
      RewriteKeepsInv(s, t, s.recs[t].(totalRun := 0));
    }
  }

  lemma TickKeepsInv(s: State, c: nat, t: nat, exec: nat, extra: nat, limit: nat)
    requires Inv(s) && c < |s.lists| && t < |s.recs|
    ensures Inv(Tick(s, c, t, exec, extra, limit))
  {
    BalancedAt(s, t);
    var u := Charge(s, t, Delta(s.recs[t], exec, extra));
    RewriteKeepsInv(s, t, u.recs[t]);
    if Linked(s, t) {
      UnlinkKeepsInv(u, t);
      RequeueIsRelink(u, c, t);
      LinkKeepsInv(Unlink(u, t), c, t);
      hide Inv, Requeue, Unlink, Link;
    }
  }

  lemma SetPrioKeepsInv(s: State, c: nat, t: nat, prio: nat, runnable: bool, exec: nat)
    requires Inv(s) && c < |s.lists| && t < |s.recs|
    ensures Inv(SetPrio(s, c, t, prio, runnable, exec))
  {
    BalancedAt(s, t);
    RewriteKeepsInv(s, t, s.recs[t].(prio := prio));
    var u := s.(recs := s.recs[t := s.recs[t].(prio := prio)]);
    if runnable && !Linked(u, t) {
      LinkKeepsInv(u, c, t);
      var v := Link(u, c, t);
      hide Inv, Insert;
      RewriteKeepsInv(v, t, v.recs[t].(sumExec := exec));
    }
  }

  lemma UnsetShareKeepsInv(s: State, t: nat, binder: bool)
    requires Inv(s) && t < |s.recs|
    ensures Inv(UnsetShare(s, t, binder))
  {
    BalancedAt(s, t);
    if Linked(s, t) {
      UnlinkKeepsInv(s, t);
      var v := Unlink(s, t);
      hide Inv, Remove;
      RewriteKeepsInv(v, t, v.recs[t].(prio := 0));
    } else {
      hide Inv;
      RewriteKeepsInv(s, t, s.recs[t].(prio := 0));
    }
  }

  lemma StepKeepsInv(s: State, e: Event)
    requires Inv(s) && Legal(s, e)
    ensures Inv(Step(s, e))
  {
    hide Inv, Enqueue, Dequeue, Tick, SetPrio, UnsetShare;
    match e
    case DoEnqueue(c, t, isUx, exec) => EnqueueKeepsInv(s, c, t, isUx, exec);
    case DoDequeue(t, running, unboost) => DequeueKeepsInv(s, t, running, unboost);
    case DoTick(c, t, exec, extra, limit) => TickKeepsInv(s, c, t, exec, extra, limit);
    case DoSetTags(c, t, prio, runnable, exec) => SetPrioKeepsInv(s, c, t, prio, runnable, exec);
    case DoSetShare(c, t, prio, runnable, exec) => SetPrioKeepsInv(s, c, t, prio, runnable, exec);
    case DoUnsetShare(t, binder) => UnsetShareKeepsInv(s, t, binder);
    case OtherGet(t) =>
      BalancedAt(s, t);
      RewriteKeepsInv(s, t, Get(s.recs[t]).(held := s.recs[t].held + 1));
    case OtherPut(t) =>
      BalancedAt(s, t);
      RewriteKeepsInv(s, t, Put(s.recs[t]).(held := s.recs[t].held - 1));
  }

  ghost predicate LegalRun(s: State, events: seq<Event>)
    requires Inv(s)
    decreases |events|
  {
    events == [] ||
    (Legal(s, events[0]) &&
     (StepKeepsInv(s, events[0]);
      LegalRun(Step(s, events[0]), events[1..])))
  }

  ghost function Run(s: State, events: seq<Event>): State
    requires Inv(s) && LegalRun(s, events)
    decreases |events|
  {
    if events == [] then s
    else
      StepKeepsInv(s, events[0]);
      Run(Step(s, events[0]), events[1..])
  }

  /** No run of the six paths, and of anybody taking and putting references of their own, leaks a
      reference or puts one twice: a task that is linked is alive, and one that is not has exactly
      the references others hold. */
  lemma {:induction false} EveryRunBalances(s: State, events: seq<Event>, t: nat)
    requires Inv(s) && LegalRun(s, events)
    ensures var u := Run(s, events);
            && Inv(u)
            && (t < |u.recs| ==>
                  if exists c :: 0 <= c < |u.lists| && t in u.lists[c]
                  then u.recs[t].refs == u.recs[t].held + 1 > 0 else u.recs[t].refs == u.recs[t].held)
    decreases |events|
  {
    if events != [] {
      StepKeepsInv(s, events[0]);
      EveryRunBalances(Step(s, events[0]), events[1..], t);
    } else if t < |s.recs| && s.recs[t].on >= 0 {
      assert t in s.lists[s.recs[t].on];
    }
  }

  // ---------------------------------------------------------------- order

  ghost predicate Sorted(s: State)
    requires Inv(s)
  {
    && (forall c :: 0 <= c < |s.lists| ==> Ordered(s.lists[c], s.recs))
    && (forall t :: 0 <= t < |s.recs| ==> s.recs[t].stamp < s.clock)
  }

  /** A step leaves the priorities of linked tasks alone. */
  ghost predicate Quiet(s: State, e: Event)
    requires Legal(s, e)
  {
    match e
    case DoEnqueue(_, _, _, _) => true
    case DoDequeue(_, _, _) => true
    case DoTick(_, _, _, _, _) => true
    case DoSetTags(_, t, prio, _, _) => s.recs[t].on < 0 || prio == s.recs[t].prio
    case DoSetShare(_, t, prio, _, _) => s.recs[t].on < 0 || prio == s.recs[t].prio
    case DoUnsetShare(_, _) => true
    case OtherGet(_) => true
    case OtherPut(_) => true
  }

  /** Order depends on the keys of listed tasks only. */
  lemma SameKeys(l: seq<nat>, a: seq<Rec>, b: seq<Rec>)
    requires Known(l, a) && Known(l, b) && Ordered(l, a)
    requires forall i :: 0 <= i < |l| ==> a[l[i]].prio == b[l[i]].prio && a[l[i]].stamp == b[l[i]].stamp
    ensures Ordered(l, b)
  {
  }

  lemma LinkKeepsSorted(s: State, c: nat, t: nat)
    requires Inv(s) && Sorted(s) && InRange(s, c, t) && s.recs[t].on < 0
    ensures Inv(Link(s, c, t)) && Sorted(Link(s, c, t))
  {
    LinkKeepsInv(s, c, t);
    hide Insert;
    var u := Link(s, c, t);
    forall d | 0 <= d < |s.lists|
      ensures Ordered(s.lists[d], u.recs)
    {
      UnlinkedElsewhere(s, t, d);
      SameKeys(s.lists[d], s.recs, u.recs);
    }
    InsertKeepsOrder(s.lists[c], u.recs, t);
    forall d | 0 <= d < |u.lists|
      ensures Ordered(u.lists[d], u.recs)
    {
      assert d == c || u.lists[d] == s.lists[d];
    }
  }

  lemma UnlinkedElsewhere(s: State, t: nat, d: nat)
    requires Inv(s) && t < |s.recs| && d < |s.lists| && s.recs[t].on != d
    ensures forall i :: 0 <= i < |s.lists[d]| ==> s.lists[d][i] != t
  {
  }

  lemma UnlinkKeepsSorted(s: State, t: nat)
    requires Inv(s) && Sorted(s) && t < |s.recs| && s.recs[t].on >= 0
    ensures Inv(Unlink(s, t)) && Sorted(Unlink(s, t))
  {
    UnlinkKeepsInv(s, t);
    hide Remove;
    var u := Unlink(s, t);
    var c := s.recs[t].on;
    RemoveKeepsOrder(s.lists[c], s.recs, t);
    forall d | 0 <= d < |u.lists|
      ensures Ordered(u.lists[d], u.recs)
    {
      assert d == c || u.lists[d] == s.lists[d];
      SameKeys(u.lists[d], s.recs, u.recs);
    }
  }

  /** Rewriting a record keeps the order if its keys stay, or if it is in no list. */
  lemma RewriteKeepsSorted(s: State, t: nat, r: Rec)
    requires Inv(s) && Sorted(s) && t < |s.recs| && Balanced(r) && r.on == s.recs[t].on && r.stamp == s.recs[t].stamp
    requires r.on < 0 || r.prio == s.recs[t].prio
    ensures Inv(s.(recs := s.recs[t := r])) && Sorted(s.(recs := s.recs[t := r]))
  {
    RewriteKeepsInv(s, t, r);
    var u := s.(recs := s.recs[t := r]);
    forall d | 0 <= d < |u.lists|
      ensures Ordered(u.lists[d], u.recs)
    {
      if r.on < 0 {
        UnlinkedElsewhere(s, t, d);
      }
      SameKeys(u.lists[d], s.recs, u.recs);
    }
  }

  ghost predicate InOrder(s: State) {
    Inv(s) && Sorted(s)
  }

  lemma EnqueueKeepsOrder(s: State, c: nat, t: nat, isUx: bool, exec: nat)
    requires InOrder(s) && c < |s.lists| && t < |s.recs|
    ensures InOrder(Enqueue(s, c, t, isUx, exec))
  {
    BalancedAt(s, t);
    if isUx && !Linked(s, t) {
      LinkKeepsSorted(s, c, t);
      var u := Link(s, c, t);
      hide Inv, Insert, Sorted;
      RewriteKeepsSorted(u, t, u.recs[t].(sumExec := exec));
    }
  }

  lemma DequeueKeepsOrder(s: State, t: nat, running: bool, unboost: bool)
    requires InOrder(s) && t < |s.recs|
    ensures InOrder(Dequeue(s, t, running, unboost))
  {
    BalancedAt(s, t);
    if Linked(s, t) {
      UnlinkKeepsSorted(s, t);
      var v := Unlink(s, t);
      hide Inv, Remove, Sorted;
      RewriteKeepsSorted(v, t, v.recs[t].(prio := 0));
      RewriteKeepsSorted(v, t, v.recs[t].(totalRun := 0));
      RewriteKeepsSorted(v, t, v.recs[t].(prio := 0, totalRun := 0));
    } else {
      hide Inv, Sorted;
      RewriteKeepsSorted(s, t, s.recs[t].(totalRun := 0));
    }
  }

  lemma TickKeepsOrder(s: State, c: nat, t: nat, exec: nat, extra: nat, limit: nat)
    requires InOrder(s) && c < |s.lists| && t < |s.recs|
    ensures InOrder(Tick(s, c, t, exec, extra, limit))
  {
    BalancedAt(s, t);
    if Linked(s, t) {
      var u := Charge(s, t, Delta(s.recs[t], exec, extra));
      RewriteKeepsSorted(s, t, u.recs[t]);
      UnlinkKeepsSorted(u, t);
      RequeueIsRelink(u, c, t);
      LinkKeepsSorted(Unlink(u, t), c, t);
      hide Inv, Sorted, Requeue, Unlink, Link;
    }
  }

  lemma SetPrioKeepsOrder(s: State, c: nat, t: nat, prio: nat, runnable: bool, exec: nat)
    requires InOrder(s) && c < |s.lists| && t < |s.recs|
    requires s.recs[t].on < 0 || prio == s.recs[t].prio
    ensures InOrder(SetPrio(s, c, t, prio, runnable, exec))
  {
    BalancedAt(s, t);
    RewriteKeepsSorted(s, t, s.recs[t].(prio := prio));
    var u := s.(recs := s.recs[t := s.recs[t].(prio := prio)]);
    if runnable && !Linked(u, t) {
      LinkKeepsSorted(u, c, t);
      var v := Link(u, c, t);
      hide Inv, Insert, Sorted;
      RewriteKeepsSorted(v, t, v.recs[t].(sumExec := exec));
    }
  }

  lemma UnsetShareKeepsOrder(s: State, t: nat, binder: bool)
    requires InOrder(s) && t < |s.recs|
    ensures InOrder(UnsetShare(s, t, binder))
  {
    BalancedAt(s, t);
    if Linked(s, t) {
      UnlinkKeepsSorted(s, t);
      var v := Unlink(s, t);
      hide Inv, Remove, Sorted;
      RewriteKeepsSorted(v, t, v.recs[t].(prio := 0));
    } else {
      hide Inv, Sorted;
      RewriteKeepsSorted(s, t, s.recs[t].(prio := 0));
    }
  }

  lemma StepKeepsOrder(s: State, e: Event)
    requires InOrder(s) && Legal(s, e) && Quiet(s, e)
    ensures InOrder(Step(s, e))
  {
    hide Inv, Sorted, Enqueue, Dequeue, Tick, SetPrio, UnsetShare;
    match e
    case DoEnqueue(c, t, isUx, exec) => EnqueueKeepsOrder(s, c, t, isUx, exec);
    case DoDequeue(t, running, unboost) => DequeueKeepsOrder(s, t, running, unboost);
    case DoTick(c, t, exec, extra, limit) => TickKeepsOrder(s, c, t, exec, extra, limit);
    case DoSetTags(c, t, prio, runnable, exec) => SetPrioKeepsOrder(s, c, t, prio, runnable, exec);
    case DoSetShare(c, t, prio, runnable, exec) => SetPrioKeepsOrder(s, c, t, prio, runnable, exec);
    case DoUnsetShare(t, binder) => UnsetShareKeepsOrder(s, t, binder);
    case OtherGet(t) =>
      BalancedAt(s, t);
      RewriteKeepsSorted(s, t, Get(s.recs[t]).(held := s.recs[t].held + 1));
    case OtherPut(t) =>
      BalancedAt(s, t);
      RewriteKeepsSorted(s, t, Put(s.recs[t]).(held := s.recs[t].held - 1));
  }

  ghost predicate QuietRun(s: State, events: seq<Event>)
    requires Inv(s) && LegalRun(s, events)
    decreases |events|
  {
    events == [] ||
    (Quiet(s, events[0]) &&
     (StepKeepsInv(s, events[0]);
      QuietRun(Step(s, events[0]), events[1..])))
  }

  /** Over runs that leave the tags of linked tasks alone, every list stays in order of priority,
      first come first among equals. */
  lemma {:induction false} QuietRunsStayInOrder(s: State, events: seq<Event>)
    requires InOrder(s) && LegalRun(s, events) && QuietRun(s, events)
    ensures InOrder(Run(s, events))
    decreases |events|
  {
    if events != [] {
      StepKeepsInv(s, events[0]);
      StepKeepsOrder(s, events[0]);
      QuietRunsStayInOrder(Step(s, events[0]), events[1..]);
    }
  }

  /** The condition that `Quiet` stands in for: new tags written in place keep a list in order exactly
      when they fit between the neighbours. */
  lemma RetagKeepsOrder(l: seq<nat>, recs: seq<Rec>, i: nat, prio: nat)
    requires Known(l, recs) && Distinct(l) && Ordered(l, recs) && i < |l|
    ensures var r := recs[l[i]].(prio := prio);
            Ordered(l, recs[l[i] := r]) <==>
              (i == 0 || Before(recs[l[i - 1]], r)) && (i + 1 == |l| || Before(r, recs[l[i + 1]]))
  {
  }

  lemma RemoveCons(x: nat, l: seq<nat>, t: nat)
    ensures Remove([x] + l, t) == if x == t then l else [x] + Remove(l, t)
  {
    assert ([x] + l)[1..] == l;
  }

  lemma {:induction false} RemoveAt(a: seq<nat>, t: nat, b: seq<nat>)
    requires t !in a
    ensures Remove(a + [t] + b, t) == a + b
  {
    hide Remove;
    if a == [] {
      RemoveCons(t, b, t);
      assert a + [t] + b == [t] + b;
    } else {
      var x, r := a[0], a[1..];
      RemoveAt(r, t, b);
      RemoveCons(x, r + [t] + b, t);
      assert a + [t] + b == [x] + (r + [t] + b);
      assert a + b == [x] + (r + b);
    }
  }

  /** Where an inserted task stands: behind its equals, ahead of all lower ones. */
  lemma InsertedStands(l: seq<nat>, recs: seq<Rec>, t: nat)
    requires Known(l, recs) && t < |recs| && t !in l
    requires Known(Insert(l, recs, t), recs) && Ordered(Insert(l, recs, t), recs)
    ensures var k, r := Place(l, recs, recs[t].prio), Insert(l, recs, t);
            && k < |r| && r[k] == t && Remove(r, t) == l
            && (forall i :: 0 <= i < k ==> recs[r[i]].prio >= recs[t].prio)
            && (forall i :: k < i < |r| ==> recs[r[i]].prio < recs[t].prio)
  {
    hide Remove, Ordered, Place;
    var k, r := Place(l, recs, recs[t].prio), Insert(l, recs, t);
    RemoveAt(l[..k], t, l[k..]);
    assert l == l[..k] + l[k..];
    assert forall i :: 0 <= i < k ==> r[i] == l[i];
    assert k < |l| ==> r[k + 1] == l[k];
    RestIsLower(r, recs, k, if k < |l| then recs[l[k]].prio else 0);
  }

  lemma TickRequeues(s: State, c: nat, t: nat, exec: nat, extra: nat, limit: nat)
    requires InRange(s, c, t) && s.recs[t].on == c
    requires UX_RUN_SLICE <= Delta(s.recs[t], exec, extra) <= limit - s.recs[t].totalRun
    ensures var u := Tick(s, c, t, exec, extra, limit);
            && |u.lists| == |s.lists| && |u.recs| == |s.recs| && u.recs[t].refs == s.recs[t].refs
            && Known(Remove(s.lists[c], t), u.recs)
            && u.lists[c] == Insert(Remove(s.lists[c], t), u.recs, t)
  {
  }

  /** A tick that does not time the task out moves it behind all its equals and ahead of everything
      of lower priority, and leaves the others in their order. */
  lemma TickRotates(s: State, c: nat, t: nat, exec: nat, extra: nat, limit: nat) returns (k: nat)
    requires InOrder(s) && c < |s.lists| && t < |s.recs| && s.recs[t].on == c
    requires UX_RUN_SLICE <= Delta(s.recs[t], exec, extra) <= limit - s.recs[t].totalRun
    ensures var u := Tick(s, c, t, exec, extra, limit);
            && c < |u.lists| && t < |u.recs| && Known(u.lists[c], u.recs)
            && k < |u.lists[c]| && u.lists[c][k] == t && u.recs[t].refs == s.recs[t].refs
            && (forall i :: 0 <= i < k ==> u.recs[u.lists[c][i]].prio >= u.recs[t].prio)
            && (forall i :: k < i < |u.lists[c]| ==> u.recs[u.lists[c][i]].prio < u.recs[t].prio)
            && Remove(u.lists[c], t) == Remove(s.lists[c], t)
  {
    hide Tick, Insert, Remove, Place;
    TickKeepsOrder(s, c, t, exec, extra, limit);
    TickRequeues(s, c, t, exec, extra, limit);
    RemoveMembers(s.lists[c], t);
    var u := Tick(s, c, t, exec, extra, limit);
    InsertedStands(Remove(s.lists[c], t), u.recs, t);
    k := Place(Remove(s.lists[c], t), u.recs, u.recs[t].prio);
  }

  lemma RestIsLower(l: seq<nat>, recs: seq<Rec>, k: nat, next: nat)
    requires Known(l, recs) && Ordered(l, recs) && k < |l|
    requires k + 1 < |l| ==> recs[l[k + 1]].prio == next < recs[l[k]].prio
    ensures forall i :: k < i < |l| ==> recs[l[i]].prio < recs[l[k]].prio
  {
  }

  // ---------------------------------------------------------------- what each path does

  /** Nothing but the record of `t` and list `c` differs. */
  ghost predicate OnlyAt(s: State, u: State, t: nat, c: nat) {
    && |u.recs| == |s.recs| && |u.lists| == |s.lists|
    && (forall x :: 0 <= x < |s.recs| && x != t ==> u.recs[x] == s.recs[x])
    && (forall d :: 0 <= d < |s.lists| && d != c ==> u.lists[d] == s.lists[d])
  }

  /** `r` is `l` with `t` put in at `k`: behind every task of its priority `p` or more that stands
      ahead of the first lower one. */
  ghost predicate PutBehind(l: seq<nat>, r: seq<nat>, recs: seq<Rec>, t: nat, p: nat, k: nat)
    requires Known(l, recs)
  {
    && k <= |l| && r == l[..k] + [t] + l[k..]
    && (forall i :: 0 <= i < k ==> recs[l[i]].prio >= p)
    && (k < |l| ==> recs[l[k]].prio < p)
  }

  /** `t`, which was in no list, is linked into list `c` with one reference more; a task that has used
      nothing of its limit is charged from `exec` on. */
  ghost predicate LinkedAt(s: State, u: State, c: nat, t: nat, prio: nat, exec: nat, k: nat)
    requires InRange(s, c, t)
  {
    var was := s.recs[t];
    && OnlyAt(s, u, t, c) && PutBehind(s.lists[c], u.lists[c], s.recs, t, prio, k)
    && (forall d :: 0 <= d < |s.lists| ==> t !in s.lists[d])
    && u.recs[t].prio == prio && u.recs[t].on == c && u.recs[t].refs == was.refs + 1
    && u.recs[t].totalRun == was.totalRun && u.recs[t].held == was.held
    && u.recs[t].sumExec == (if was.totalRun == 0 then exec else was.sumExec)
  }

  lemma LinkComputes(s: State, c: nat, t: nat, prio: nat, exec: nat) returns (k: nat)
    requires Inv(s) && c < |s.lists| && t < |s.recs| && s.recs[t].on < 0
    ensures LinkedAt(s, SetPrio(s, c, t, prio, true, exec), c, t, prio, exec, k)
  {
    var recs := s.recs[t := Get(s.recs[t].(prio := prio)).(on := c, stamp := s.clock)];
    k := Place(s.lists[c], recs, prio);
    forall d | 0 <= d < |s.lists|
      ensures t !in s.lists[d]
    {
      UnlinkedElsewhere(s, t, d);
    }
    UnlinkedElsewhere(s, t, c);
    hide Inv;
  }

  /** `enqueue_ux_task` links a UX task with a free node, and does nothing else. */
  lemma EnqueueComputes(s: State, c: nat, t: nat, isUx: bool, exec: nat) returns (k: nat)
    requires Inv(s) && c < |s.lists| && t < |s.recs|
    ensures var u := Enqueue(s, c, t, isUx, exec);
            if isUx && s.recs[t].on < 0 then LinkedAt(s, u, c, t, s.recs[t].prio, exec, k) else u == s
  {
    k := 0;
    if isUx && s.recs[t].on < 0 {
      k := LinkComputes(s, c, t, s.recs[t].prio, exec);
      assert s.recs[t := s.recs[t].(prio := s.recs[t].prio)] == s.recs;
      hide LinkedAt, Link;
    }
  }

  /** New tags in place: a runnable task with a free node is linked by its new priority; any other
      keeps its place. */
  lemma SetPrioComputes(s: State, c: nat, t: nat, prio: nat, runnable: bool, exec: nat) returns (k: nat)
    requires Inv(s) && c < |s.lists| && t < |s.recs|
    ensures var u := SetPrio(s, c, t, prio, runnable, exec);
            if runnable && s.recs[t].on < 0 then LinkedAt(s, u, c, t, prio, exec, k)
            else u == s.(recs := s.recs[t := s.recs[t].(prio := prio)])
  {
    k := 0;
    if runnable && s.recs[t].on < 0 {
      k := LinkComputes(s, c, t, prio, exec);
    }
  }

  /** `t` has been taken out of list `c`, where it stood at `k`, with one reference less. */
  ghost predicate UnlinkedAt(s: State, u: State, c: nat, t: nat, k: nat)
    requires InRange(s, c, t)
  {
    && OnlyAt(s, u, t, c)
    && k < |s.lists[c]| && s.lists[c][k] == t && u.lists[c] == s.lists[c][..k] + s.lists[c][k + 1..]
    && (forall d :: 0 <= d < |u.lists| ==> t !in u.lists[d])
    && u.recs[t].on == -1 && u.recs[t].refs == s.recs[t].refs - 1 && u.recs[t].held == s.recs[t].held
  }

  lemma UnlinkComputes(s: State, t: nat) returns (k: nat)
    requires Inv(s) && t < |s.recs| && s.recs[t].on >= 0
    ensures InRange(s, s.recs[t].on, t) && UnlinkedAt(s, Unlink(s, t), s.recs[t].on, t, k)
    ensures Unlink(s, t).recs[t] == s.recs[t].(on := -1, refs := s.recs[t].refs - 1) && Unlink(s, t).clock == s.clock
  {
    hide Remove;
    var l := s.lists[s.recs[t].on];
    assert t in l;
    k :| 0 <= k < |l| && l[k] == t;
    assert l[..k] + [t] + l[k + 1..] == l;
    RemoveAt(l[..k], t, l[k + 1..]);
    UnlinkKeepsInv(s, t);
    var u := Unlink(s, t);
    forall d | 0 <= d < |u.lists|
      ensures t !in u.lists[d]
    {
      UnlinkedElsewhere(u, t, d);
    }
    hide Inv;
  }

  /** `dequeue_ux_task` unlinks a linked task, drops its tags if told to, and forgets its run time
      unless it is still running. */
  lemma DequeueComputes(s: State, t: nat, running: bool, unboost: bool) returns (k: nat)
    requires Inv(s) && t < |s.recs|
    ensures s.recs[t].on < |s.lists|
    ensures var u, was := Dequeue(s, t, running, unboost), s.recs[t];
            && |u.recs| == |s.recs|
            && u.recs[t].totalRun == (if running then was.totalRun else 0) && u.recs[t].sumExec == was.sumExec
            && if was.on >= 0
               then InRange(s, was.on, t) && UnlinkedAt(s, u, was.on, t, k)
                    && u.recs[t].prio == if unboost then 0 else was.prio
               else u == s.(recs := s.recs[t := was.(totalRun := if running then was.totalRun else 0)])
  {
    k := 0;
    BalancedAt(s, t);
    if s.recs[t].on >= 0 {
      k := UnlinkComputes(s, t);
      hide Unlink, Inv;
    }
  }

  /** The end of a boost: a queued binder boost is left alone; any other task is in no list
      afterwards and has no tags. */
  lemma UnsetShareComputes(s: State, t: nat, binder: bool) returns (k: nat)
    requires Inv(s) && t < |s.recs|
    ensures s.recs[t].on < |s.lists|
    ensures var u, was := UnsetShare(s, t, binder), s.recs[t];
            && |u.recs| == |s.recs|
            && if was.on < 0 then u == s.(recs := s.recs[t := was.(prio := 0)])
               else if binder then u == s
               else InRange(s, was.on, t) && UnlinkedAt(s, u, was.on, t, k) && u.recs[t].prio == 0
                    && u.recs[t].totalRun == was.totalRun && u.recs[t].sumExec == was.sumExec
  {
    k := 0;
    BalancedAt(s, t);
    if s.recs[t].on >= 0 {
      k := UnlinkComputes(s, t);
      hide Unlink, Inv;
    }
  }

  /** A tick looks at the time run since the last look, none if the clock of the task is behind. Less
      than 4 ms is left for later. Otherwise it is charged, and a task past its limit is unlinked; one
      within it stays linked, now on this CPU. */
  lemma TickComputes(s: State, c: nat, t: nat, exec: nat, extra: nat, limit: nat) returns (k: nat)
    requires Inv(s) && c < |s.lists| && t < |s.recs|
    ensures s.recs[t].on < |s.lists| && InRange(s, c, t)
    ensures var u, was := Tick(s, c, t, exec, extra, limit), s.recs[t];
            var ran := if exec < was.sumExec then 0 else exec - was.sumExec + extra;
            && |u.recs| == |s.recs|
            && if was.on < 0 || ran < 4000000 then u == s
               else
                 && u.recs[t].sumExec == was.sumExec + ran && u.recs[t].totalRun == was.totalRun + ran
                 && u.recs[t].prio == was.prio
                 && if was.totalRun + ran > limit then InRange(s, was.on, t) && UnlinkedAt(s, u, was.on, t, k)
                    else u.recs[t].on == c && u.recs[t].refs == was.refs
  {
    k := 0;
    BalancedAt(s, t);
    if s.recs[t].on >= 0 {
      var v := Charge(s, t, Delta(s.recs[t], exec, extra));
      RewriteKeepsInv(s, t, v.recs[t]);
      k := UnlinkComputes(v, t);
      hide Unlink, Inv, Insert, Remove;
    }
  }

  // ---------------------------------------------------------------- picking

  /** `pick_next_ux_fair`: the list is walked past ineligible tasks; on an ordered list the task found
      is the earliest of the highest priority among the eligible. */
  method PickNextUxFair(l: seq<nat>, recs: seq<Rec>, eligible: seq<bool>) returns (picked: int)
    requires Known(l, recs) && |eligible| == |recs|
    ensures picked == -1 <==> forall i :: 0 <= i < |l| ==> !eligible[l[i]]
    ensures picked != -1 ==> 0 <= picked < |recs| && picked in l && eligible[picked]
    ensures picked != -1 && Ordered(l, recs) ==>
              forall i :: 0 <= i < |l| && eligible[l[i]] && l[i] != picked ==> Before(recs[picked], recs[l[i]])
  {
    for i := 0 to |l|
      invariant forall j :: 0 <= j < i ==> !eligible[l[j]]
    {
      if !eligible[l[i]] {
        continue;
      }
      return l[i];
    }
    return -1;
  }

  // ---------------------------------------------------------------- the lists themselves

  class UxLists {
    const recs: array<Rec>
    const lists: array<seq<nat>>
    var clock: nat

    ghost function Value(): State
      reads this, recs, lists
    {
      State(recs[..], lists[..], clock)
    }

    constructor (cpus: nat, tasks: nat)
      ensures InOrder(Value()) && fresh(recs) && fresh(lists)
    {
      recs := new Rec[tasks](_ => Rec(0, 1, -1, 0, 0, 1, 0));
      lists := new seq<nat>[cpus](_ => []);
      clock := 1;
    }

    /** `insert_ux_into_list`: walk to the first task of lower priority. */
    method InsertUxIntoList(c: nat, t: nat)
      requires c < lists.Length && t < recs.Length && Known(lists[c], recs[..])
      modifies lists
      ensures lists[..] == old(lists[..])[c := Insert(old(lists[c]), recs[..], t)]
    {
      var l := lists[c];
      var k := 0;
      while k < |l| && !(recs[t].prio > recs[l[k]].prio)
        invariant k <= |l| && forall i :: 0 <= i < k ==> recs[l[i]].prio >= recs[t].prio
      {
        k := k + 1;
      }
      PlaceIs(l, recs[..], recs[t].prio, k);
      lists[c] := l[..k] + [t] + l[k..];
    }

    method LinkTask(c: nat, t: nat)
      requires InRange(Value(), c, t)
      modifies this, recs, lists
      ensures Value() == Link(old(Value()), c, t)
    {
      hide Insert;
      recs[t] := recs[t].(on := c, stamp := clock);
      recs[t] := recs[t].(refs := recs[t].refs + 1);
      assert recs[..] == old(recs[..])[t := Get(old(recs[t])).(on := c, stamp := clock)];
      InsertUxIntoList(c, t);
      clock := clock + 1;
    }

    method UnlinkTask(t: nat)
      requires t < recs.Length && 0 <= recs[t].on < lists.Length
      modifies recs, lists
      ensures Value() == Unlink(old(Value()), t)
    {
      var c := recs[t].on;
      lists[c] := Remove(lists[c], t);
      recs[t] := recs[t].(on := -1);
      recs[t] := recs[t].(refs := recs[t].refs - 1);
    }

    method EnqueueUxTask(c: nat, t: nat, isUx: bool, exec: nat)
      requires InRange(Value(), c, t)
      modifies this, recs, lists
      ensures Value() == Enqueue(old(Value()), c, t, isUx, exec)
    {
      hide Insert;
      if !isUx {
        return;
      }
      if recs[t].on >= 0 {
        return;
      }
      LinkTask(c, t);
      if recs[t].totalRun == 0 {
        recs[t] := recs[t].(sumExec := exec);
      }
    }

    method DequeueUxTask(t: nat, running: bool, unboost: bool)
      requires t < recs.Length && recs[t].on < lists.Length
      modifies recs, lists
      ensures Value() == Dequeue(old(Value()), t, running, unboost)
    {
      hide Remove;
      if recs[t].on >= 0 {
        UnlinkTask(t);
        if unboost {
          recs[t] := recs[t].(prio := 0);
        }
      }
      if !running {
        recs[t] := recs[t].(totalRun := 0);
      }
    }

    method UpdateUxRuntime(c: nat, t: nat, exec: nat, extra: nat, limit: nat)
      requires InRange(Value(), c, t) && 0 <= recs[t].on < lists.Length
      modifies this, recs, lists
      ensures Value() == Tick(old(Value()), c, t, exec, extra, limit)
    {
      hide Insert, Remove;
      var delta: int := exec - recs[t].sumExec;
      if delta < 0 {
        delta := 0;
      } else {
        delta := delta + extra;
      }
      if delta < UX_RUN_SLICE {
        return;
      }
      recs[t] := recs[t].(sumExec := recs[t].sumExec + delta, totalRun := recs[t].totalRun + delta);
      if recs[t].totalRun > limit {
        UnlinkTask(t);
        return;
      }
      MoveBehindEquals(c, t);
    }

    method MoveBehindEquals(c: nat, t: nat)
      requires InRange(Value(), c, t) && 0 <= recs[t].on < lists.Length
      modifies this, recs, lists
      ensures Value() == Requeue(old(Value()), c, t)
    {
      hide Insert, Remove;
      lists[recs[t].on] := Remove(lists[recs[t].on], t);
      recs[t] := recs[t].(on := c, stamp := clock);
      InsertUxIntoList(c, t);
      clock := clock + 1;
    }
  }

  lemma {:induction false} PlaceIs(l: seq<nat>, recs: seq<Rec>, p: nat, k: nat)
    requires Known(l, recs) && k <= |l|
    requires forall i :: 0 <= i < k ==> recs[l[i]].prio >= p
    requires k < |l| ==> p > recs[l[k]].prio
    ensures Place(l, recs, p) == k
  {
  }
}
