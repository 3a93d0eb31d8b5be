/** The wake queue as a heap structure: an intrusive list with a pointer-to-pointer tail. */
module WakeQueue {

  /** The three states of `wake_q.next`: in no queue, last of a queue, followed by a task. */
  datatype Link = Null | Tail | Node(task: Task)

  /** The cell `lastp` points at: the head's `first` or a queued task's `next`. */
  datatype Slot = First | NextOf(task: Task)

  class Task {
    var next: Link
    var refcnt: int
    var state: int

    constructor (state: int)
      ensures next == Null && refcnt == 1 && this.state == state
    {
      next, refcnt, this.state := Null, 1, state;
    }
  }

  ghost function HeadLink(m: seq<Task>): Link {
    if m == [] then Tail else Node(m[0])
  }

  ghost function EndSlot(m: seq<Task>): Slot {
    if m == [] then First else NextOf(m[|m| - 1])
  }

  ghost function Succ(m: seq<Task>, i: nat): Link {
    if i + 1 < |m| then Node(m[i + 1]) else Tail
  }

  /** `m` is linked in this order and ends in the sentinel. */
  ghost predicate Chain(m: seq<Task>)
    reads m
  {
    && (forall i {:trigger m[i].next} :: 0 <= i < |m| ==> m[i].next == Succ(m, i))
    && (forall i, j :: 0 <= i < j < |m| ==> m[i] != m[j])
  }

  class WakeQHead {
    var first: Link
    var lastp: Slot
    ghost var members: seq<Task>

    ghost predicate Valid()
      reads this, members
    {
      Chain(members) && first == HeadLink(members) && lastp == EndSlot(members)
    }

    constructor ()
      ensures Valid() && members == []
    {
      first, lastp := Tail, First;
      members := [];
    }

    method Init()
      modifies this
      ensures Valid() && members == []
    {
      first := Tail;
      lastp := First;
      members := [];
    }

    /** `__wake_q_add`: claim the task if it is in no queue, append it through `lastp`. */
    method TryAdd(task: Task) returns (added: bool)
      requires Valid()
      modifies this, task`next, (set t | t in members)`next
      ensures Valid()
      ensures added <==> old(task.next) == Null
      ensures members == if added then old(members) + [task] else old(members)
      ensures !added ==> first == old(first) && lastp == old(lastp) && task.next == old(task.next)
      ensures forall t :: t in old(members) ==>
                t.next == old(t.next) || (added && t == old(members)[|old(members)| - 1])
    {
      if task.next != Null {
        return false;
      }
      ghost var m := members;
      assert forall i {:trigger m[i].next} :: 0 <= i < |m| ==> m[i].next == Succ(m, i) && m[i] != task;
      task.next := Tail;
      match lastp {
        case First => first := Node(task);
        case NextOf(u) => u.next := Node(task);
      }
      lastp := NextOf(task);
      members := m + [task];
      return true;
    }

    /** `wake_q_add`: an admitted task gets a reference of the queue's own. */
    method Add(task: Task) returns (added: bool)
      requires Valid()
      modifies this, task`next, task`refcnt, (set t | t in members)`next
      ensures Valid()
      ensures added <==> old(task.next) == Null
      ensures members == if added then old(members) + [task] else old(members)
      ensures task.refcnt == old(task.refcnt) + if added then 1 else 0
      ensures forall t :: t in old(members) ==>
                t.next == old(t.next) || (added && t == old(members)[|old(members)| - 1])
      ensures !added ==> task.next == old(task.next)
    {
      added := TryAdd(task);
      if added {
        task.refcnt := task.refcnt + 1;
      }
    }

    /** `wake_q_add_safe`: the caller's reference becomes the queue's, or is put. */
    method AddSafe(task: Task) returns (added: bool)
      requires Valid()
      modifies this, task`next, task`refcnt, (set t | t in members)`next
      ensures Valid()
      ensures added <==> old(task.next) == Null
      ensures members == if added then old(members) + [task] else old(members)
      ensures task.refcnt == old(task.refcnt) - if added then 0 else 1
      ensures forall t :: t in old(members) ==>
                t.next == old(t.next) || (added && t == old(members)[|old(members)| - 1])
      ensures !added ==> task.next == old(task.next)
    {
      added := TryAdd(task);
      if !added {
        task.refcnt := task.refcnt - 1;
      }
    }

    /** `wake_up_q`: walk the list, free each task for re-queueing, wake it, put the reference.
        The head itself is left pointing at its old first task and must be initialised again. */
    method WakeUp() returns (woken: seq<Task>)
      requires Valid()
      modifies this`members, members
      ensures woken == old(members) && members == []
      ensures first == old(first) && lastp == old(lastp)
      ensures forall t :: t in woken ==> Served(t) && t.refcnt == old(t.refcnt) - 1
    {
      ghost var m := members;
      ghost var k: nat := 0;
      var node := first;
      woken := [];
      while node != Tail
        invariant k <= |m| && woken == m[..k]
        invariant node == HeadLink(m[k..])
        invariant forall i {:trigger m[i].next} :: k <= i < |m| ==> m[i].next == Succ(m, i)
        invariant forall i :: k <= i < |m| ==> m[i].refcnt == old(m[i].refcnt)
        invariant forall i :: 0 <= i < k ==> Served(m[i]) && m[i].refcnt == old(m[i].refcnt) - 1
        decreases |m| - k
      {
        var task := node.task;
        assert task == m[k];
        assert forall j :: 0 <= j < |m| && j != k ==> m[j] != task;
        node := task.next;
        task.next := Null;
        task.state := 0;
        task.refcnt := task.refcnt - 1;
        woken := woken + [task];
        k := k + 1;
      }
      members := [];
    }
  }

  /** Out of every queue and running. */
  ghost predicate Served(t: Task)
    reads t
  {
    t.next == Null && t.state == 0
  }

  // ---------------------------------------------------------------- several queues, shared tasks

  /** All queues are well formed, no two share a task, and a task of the universe has `next`
      clear exactly when it is in none of them. */
  ghost predicate World(heads: set<WakeQHead>, tasks: set<Task>)
    reads heads, tasks
  {
    && (forall h, t :: h in heads && t in h.members ==> t in tasks)
    && (forall h :: h in heads ==> h.Valid())
    && (forall g, h, t :: g in heads && h in heads && t in g.members && t in h.members ==> g == h)
    && (forall t :: t in tasks ==> (t.next == Null <==> Unqueued(heads, t)))
  }

  ghost predicate Unqueued(heads: set<WakeQHead>, t: Task)
    reads heads
  {
    forall h :: h in heads ==> t !in h.members
  }

  /** A queue is untouched by what happens to the tasks of other queues. */
  twostate lemma StaysValid(g: WakeQHead)
    requires old(g.Valid())
    requires g.members == old(g.members) && g.first == old(g.first) && g.lastp == old(g.lastp)
    requires forall t :: t in g.members ==> t.next == old(t.next)
    ensures g.Valid()
  {
    assert forall i {:trigger g.members[i].next} :: 0 <= i < |g.members| ==>
             g.members[i].next == old(g.members[i].next);
  }

  lemma LinkedWhenQueued(h: WakeQHead)
    requires h.Valid()
    ensures forall t :: t in h.members ==> t.next != Null
  {
  }

  /** Adding to one queue leaves every queue well formed and every task in at most one of them. */
  method AddIn(ghost heads: set<WakeQHead>, ghost tasks: set<Task>, h: WakeQHead, task: Task)
    returns (added: bool)
    requires World(heads, tasks) && h in heads && task in tasks
    modifies h, tasks
    ensures World(heads, tasks)
    ensures added <==> old(Unqueued(heads, task))
    ensures h.members == old(h.members) + if added then [task] else []
    ensures forall g :: g in heads && g != h ==> g.members == old(g.members)
    ensures task.refcnt == old(task.refcnt) + if added then 1 else 0
    ensures forall t :: t in tasks && t != task ==> t.refcnt == old(t.refcnt)
    ensures forall t :: t in tasks ==> t.state == old(t.state)
  {
    hide WakeQHead.Valid;
    added := h.Add(task);
    forall g | g in heads && g != h
      ensures g.Valid()
    {
      assert forall t :: t in g.members ==> t !in old(h.members);
      assert added ==> task !in g.members;
      StaysValid(g);
    }
    LinkedWhenQueued(h);
  }

  /** Draining one queue wakes its tasks once each, in the order they were added, frees exactly
      those for re-queueing, and leaves all other queues alone. */
  method DrainIn(ghost heads: set<WakeQHead>, ghost tasks: set<Task>, h: WakeQHead)
    returns (woken: seq<Task>)
    requires World(heads, tasks) && h in heads
    modifies h, tasks
    ensures World(heads, tasks)
    ensures woken == old(h.members) && h.members == []
    ensures forall g :: g in heads && g != h ==> g.members == old(g.members)
    ensures forall t :: t in tasks ==>
              if t in woken then t.state == 0 && t.refcnt == old(t.refcnt) - 1
              else t.state == old(t.state) && t.refcnt == old(t.refcnt)
  {
    hide WakeQHead.Valid;
    woken := h.WakeUp();
    h.Init();
    forall g | g in heads && g != h
      ensures g.Valid()
    {
      assert forall t :: t in g.members ==> t !in old(h.members);
      StaysValid(g);
    }
  }

  /** The tasks of `requests` that are free, each at its first mention. */
  ghost function Admitted(requests: seq<Task>, free: set<Task>): seq<Task> {
    if requests == [] then []
    else
      var rest := Admitted(requests[..|requests| - 1], free);
      var t := requests[|requests| - 1];
      if t in free && t !in rest then rest + [t] else rest
  }

  lemma {:induction false} AdmittedOnce(requests: seq<Task>, free: set<Task>)
    ensures forall t :: t in Admitted(requests, free) <==> t in requests && t in free
    ensures forall i, j :: 0 <= i < j < |Admitted(requests, free)| ==>
              Admitted(requests, free)[i] != Admitted(requests, free)[j]
  {
    if requests != [] {
      var front := requests[..|requests| - 1];
      assert requests == front + [requests[|requests| - 1]];
      AdmittedOnce(front, free);
    }
  }

  /** `h` holds what was admitted so far; a task is free unless it was queued before or `h` has it. */
  ghost predicate Filling(heads: set<WakeQHead>, tasks: set<Task>, h: WakeQHead, free: set<Task>, requests: seq<Task>)
    reads heads, h
  {
    && h.members == Admitted(requests, free)
    && forall t :: t in tasks ==> (Unqueued(heads, t) <==> t in free && t !in h.members)
  }

  method AddNext(ghost heads: set<WakeQHead>, ghost tasks: set<Task>, h: WakeQHead, ghost free: set<Task>,
                 ghost before: seq<Task>, t: Task)
    requires World(heads, tasks) && h in heads && t in tasks
    requires Filling(heads, tasks, h, free, before)
    modifies h, tasks
    ensures World(heads, tasks)
    ensures Filling(heads, tasks, h, free, before + [t])
    ensures forall g :: g in heads && g != h ==> g.members == old(g.members)
    ensures forall u :: u in tasks ==>
              && u.refcnt - old(u.refcnt) == (if u in h.members then 1 else 0) - (if u in old(h.members) then 1 else 0)
              && u.state == old(u.state)
  {
    assert (before + [t])[..|before + [t]| - 1] == before;
    var added := AddIn(heads, tasks, h, t);
    assert forall u :: u in h.members <==> u in old(h.members) || (added && u == t);
  }

  method AddAll(ghost heads: set<WakeQHead>, ghost tasks: set<Task>, h: WakeQHead, ghost free: set<Task>,
                requests: seq<Task>)
    requires World(heads, tasks) && h in heads && h.members == []
    requires free == set t | t in tasks && Unqueued(heads, t)
    requires forall t :: t in requests ==> t in tasks
    modifies h, tasks
    ensures World(heads, tasks)
    ensures Filling(heads, tasks, h, free, requests)
    ensures forall g :: g in heads && g != h ==> g.members == old(g.members)
    ensures forall t :: t in tasks ==>
              t.refcnt == old(t.refcnt) + (if t in h.members then 1 else 0) && t.state == old(t.state)
    decreases |requests|
  {
    if requests != [] {
      var front, t := requests[..|requests| - 1], requests[|requests| - 1];
      assert requests == front + [t];
      AddAll(heads, tasks, h, free, front);
      AddNext(heads, tasks, h, free, front, t);
    }
  }

  /** Deferred wake-up end to end: whatever is asked for, in whatever order and however often, each
      free task is woken exactly once, in order of first request, queued tasks are left to the
      queue they are in, and no reference is leaked or put twice. */
  method Deferred(ghost heads: set<WakeQHead>, ghost tasks: set<Task>, h: WakeQHead, requests: seq<Task>)
    returns (woken: seq<Task>)
    requires World(heads, tasks) && h in heads && h.members == []
    requires forall t :: t in requests ==> t in tasks
    modifies h, tasks
    ensures World(heads, tasks) && h.members == []
    ensures woken == Admitted(requests, set t | t in tasks && old(Unqueued(heads, t)))
    ensures forall g :: g in heads && g != h ==> g.members == old(g.members)
    ensures forall t :: t in tasks ==> t.refcnt == old(t.refcnt)
    ensures forall t :: t in tasks ==> t.state == if t in woken then 0 else old(t.state)
  {
    ghost var free := set t | t in tasks && Unqueued(heads, t);
    AddAll(heads, tasks, h, free, requests);
    woken := DrainIn(heads, tasks, h);
  }
}
