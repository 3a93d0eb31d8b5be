/** The wakers of a key task: an array of eight slots written round and round, and the bounded
    first-in first-out list it stands for. */
module KeyTaskRing {

  const MAX_DEP_ARR_SIZE := 8

  datatype Task = Task(pid: int, tgid: int, comm: string)

  datatype Entry = Entry(task: Task, load: nat)

  predicate Same(a: Task, b: Task) {
    a.pid == b.pid && a.tgid == b.tgid
  }

  // ---------------------------------------------------------------- the list, oldest first

  predicate Known(f: seq<Entry>, w: Task) {
    exists i :: 0 <= i < |f| && Same(f[i].task, w)
  }

  function Bumped(e: Entry, w: Task): Entry {
    if Same(e.task, w) then Entry(e.task, e.load + 1) else e
  }

  function Bump(f: seq<Entry>, w: Task): (r: seq<Entry>)
    ensures |r| == |f| && forall i :: 0 <= i < |f| ==> r[i] == Bumped(f[i], w)
  {
    seq(|f|, i requires 0 <= i < |f| => Bumped(f[i], w))
  }

  function Survivors(f: seq<Entry>): seq<Entry> {
    if |f| >= MAX_DEP_ARR_SIZE then f[1..] else f
  }

  /** One wake-up by `w`: a known waker's load grows, an unknown one is put last and displaces
      the oldest if the list is full. */
  function Wake(f: seq<Entry>, w: Task): seq<Entry> {
    if Known(f, w) then Bump(f, w) else Survivors(f) + [Entry(w, 1)]
  }

  ghost predicate DistinctKeys(f: seq<Entry>) {
    forall i, j :: 0 <= i < j < |f| ==> !Same(f[i].task, f[j].task)
  }

  /** The list after a history of wake-ups. */
  function Replay(h: seq<Task>): seq<Entry> {
    if h == [] then [] else Wake(Replay(h[..|h| - 1]), h[|h| - 1])
  }

  /** The wake-ups of the history that entered the list, in order. */
  function Insertions(h: seq<Task>): seq<Task> {
    if h == [] then []
    else
      var front, w := h[..|h| - 1], h[|h| - 1];
      if Known(Replay(front), w) then Insertions(front) else Insertions(front) + [w]
  }

  function Latest(s: seq<Task>, n: nat): seq<Task> {
    if |s| <= n then s else s[|s| - n..]
  }

  function Tasks(f: seq<Entry>): (r: seq<Task>)
    ensures |r| == |f| && forall i :: 0 <= i < |f| ==> r[i] == f[i].task
  {
    seq(|f|, i requires 0 <= i < |f| => f[i].task)
  }

  lemma WakeKeepsKeys(f: seq<Entry>, w: Task)
    requires DistinctKeys(f) && |f| <= MAX_DEP_ARR_SIZE
    ensures DistinctKeys(Wake(f, w)) && |Wake(f, w)| <= MAX_DEP_ARR_SIZE
  {
  }

  lemma LatestGrows(s: seq<Task>, w: Task)
    ensures var l := Latest(s, MAX_DEP_ARR_SIZE);
            Latest(s + [w], MAX_DEP_ARR_SIZE) == (if |l| >= MAX_DEP_ARR_SIZE then l[1..] else l) + [w]
  {
  }

  lemma WakeTasks(f: seq<Entry>, w: Task)
    ensures Tasks(Wake(f, w)) ==
              if Known(f, w) then Tasks(f)
              else (if |f| >= MAX_DEP_ARR_SIZE then Tasks(f)[1..] else Tasks(f)) + [w]
  {
  }

  /** The list never names a waker twice and holds exactly the last eight that entered it. */
  lemma {:induction false} LatestInsertionsStay(h: seq<Task>)
    ensures DistinctKeys(Replay(h))
    ensures Tasks(Replay(h)) == Latest(Insertions(h), MAX_DEP_ARR_SIZE)
  {
    if h != [] {
      var front, w := h[..|h| - 1], h[|h| - 1];
      LatestInsertionsStay(front);
      hide Wake, Known, Tasks, DistinctKeys, Latest;
      WakeKeepsKeys(Replay(front), w);
      WakeTasks(Replay(front), w);
      LatestGrows(Insertions(front), w);
    }
  }

  function Count(h: seq<Task>, w: Task): nat {
    if h == [] then 0 else Count(h[..|h| - 1], w) + if Same(h[|h| - 1], w) then 1 else 0
  }

  /** Wake-up `k` entered the list, and no later one by the same waker did. */
  ghost predicate EnteredLast(h: seq<Task>, k: nat) {
    && k < |h|
    && !Known(Replay(h[..k]), h[k])
    && forall j :: k < j < |h| && Same(h[j], h[k]) ==> Known(Replay(h[..j]), h[j])
  }

  lemma EnteredLastExtends(front: seq<Task>, w: Task, k: nat)
    requires EnteredLast(front, k) && (Same(w, front[k]) ==> Known(Replay(front), w))
    ensures EnteredLast(front + [w], k) && (front + [w])[k] == front[k]
    ensures Count((front + [w])[k..], front[k]) == Count(front[k..], front[k]) + if Same(w, front[k]) then 1 else 0
  {
    hide Replay, Known;
    var h := front + [w];
    assert forall j :: 0 <= j <= |front| ==> h[..j] == front[..j];
    assert front[..|front|] == front;
    assert h[k..][..|h[k..]| - 1] == front[k..];
  }

  /** A load is the number of wake-ups by that waker since it last entered the list, with the name
      it then had. */
  lemma {:induction false} LoadsCount(h: seq<Task>, i: nat) returns (k: nat)
    requires i < |Replay(h)|
    ensures EnteredLast(h, k) && h[k] == Replay(h)[i].task
    ensures Replay(h)[i].load == Count(h[k..], h[k])
  {
    var front, w := h[..|h| - 1], h[|h| - 1];
    var f := Replay(front);
    assert h == front + [w];
    if Known(f, w) {
      k := LoadsCount(front, i);
      EnteredLastExtends(front, w, k);
    } else if i == |Replay(h)| - 1 {
      k := |front|;
      assert h[k..] == [w];
      assert Count([w], w) == 1;
    } else {
      var j := if |f| >= MAX_DEP_ARR_SIZE then i + 1 else i;
      k := LoadsCount(front, j);
      assert Replay(h)[i] == f[j];
      EnteredLastExtends(front, w, k);
    }
  }

  // ---------------------------------------------------------------- the array

  ghost function FifoOf(arr: seq<Entry>, size: nat, ins: nat): seq<Entry>
    requires size <= |arr| && ins < |arr|
  {
    if size < |arr| then arr[..size] else arr[ins..] + arr[..ins]
  }

  lemma RotatedKeys(arr: seq<Entry>, ins: nat)
    requires ins < |arr|
    ensures DistinctKeys(arr) ==> DistinctKeys(arr[ins..] + arr[..ins])
  {
  }

  class DepArr {
    var size: int
    var insIdx: int
    const arr: array<Entry>

    ghost predicate Valid()
      reads this, arr
    {
      && arr.Length == MAX_DEP_ARR_SIZE
      && 0 <= size <= MAX_DEP_ARR_SIZE && 0 <= insIdx < MAX_DEP_ARR_SIZE
      && (size < MAX_DEP_ARR_SIZE ==> insIdx == size)
      && DistinctKeys(arr[..size])
    }

    /** Oldest first: the slots in order until the array is full, then from the next to be written. */
    ghost function Fifo(): seq<Entry>
      requires Valid()
      reads this, arr
    {
      FifoOf(arr[..], size, insIdx)
    }

    /** The zeroed record of a key task that was not woken yet. */
    constructor ()
      ensures Valid() && Fifo() == [] && fresh(arr)
    {
      size, insIdx := 0, 0;
      arr := new Entry[MAX_DEP_ARR_SIZE](_ => Entry(Task(0, 0, ""), 0));
    }

    /** `search_dep_update`: count the wake-up if the waker is known; the slot, or -1. */
    method SearchDepUpdate(w: Task) returns (slot: int)
      requires Valid()
      modifies arr
      ensures Valid()
      ensures slot == -1 <==> !Known(old(Fifo()), w)
      ensures slot == -1 ==> Fifo() == old(Fifo())
      ensures slot != -1 ==> 0 <= slot < size && Same(arr[slot].task, w) && arr[slot] in Fifo()
      ensures slot != -1 ==> Fifo() == Bump(old(Fifo()), w)
    {
      hide FifoOf, DistinctKeys, Known;
      for i := 0 to MAX_DEP_ARR_SIZE
        invariant arr[..] == old(arr[..])
        invariant forall j :: 0 <= j < i && j < size ==> !Same(arr[j].task, w)
      {
        if i >= size {
          break;
        }
        if Same(arr[i].task, w) {
          BumpSlot(arr[..], size, insIdx, i, w);
          arr[i] := Entry(arr[i].task, arr[i].load + 1);
          return i;
        }
      }
      NoSlot(arr[..], size, insIdx, w);
      return -1;
    }

    /** `insert_task`: overwrite the slot at `insIdx` and advance both counters. */
    method InsertTask(w: Task)
      requires Valid() && !Known(Fifo(), w)
      modifies this, arr
      ensures Valid() && Fifo() == Survivors(old(Fifo())) + [Entry(w, 1)]
    {
      ghost var f := Fifo();
      if insIdx < 0 || insIdx >= MAX_DEP_ARR_SIZE {
        return;
      }
      NoSlot(arr[..], size, insIdx, w);
      InsertedFifo(arr[..], size, insIdx, Entry(w, 1));
      InsertedKeys(arr[..], size, insIdx, Entry(w, 1));
      arr[insIdx] := Entry(w, 1);
      insIdx := (insIdx + 1) % MAX_DEP_ARR_SIZE;
      size := if size >= MAX_DEP_ARR_SIZE then MAX_DEP_ARR_SIZE else size + 1;
      hide FifoOf, DistinctKeys;
    }

    lemma FifoDistinct()
      requires Valid()
      ensures DistinctKeys(Fifo())
    {
      assert size == arr.Length ==> arr[..size] == arr[..];
      RotatedKeys(arr[..], insIdx);
    }

    /** `update_dep` on an existing record. */
    method UpdateDep(w: Task) returns (slot: int)
      requires Valid()
      modifies this, arr
      ensures Valid() && Fifo() == Wake(old(Fifo()), w)
      ensures slot == -1 <==> !Known(old(Fifo()), w)
      ensures slot != -1 ==> 0 <= slot < size && Same(arr[slot].task, w) && arr[slot] in Fifo()
    {
      slot := SearchDepUpdate(w);
      if slot != -1 {
        return;
      }
      InsertTask(w);
    }
  }

  /** The list holds the written slots, whichever way round it is read. */
  lemma SlotOfFifo(arr: seq<Entry>, size: nat, ins: nat, e: Entry)
    requires size <= |arr| && ins < |arr|
    ensures e in FifoOf(arr, size, ins) <==> e in arr[..size]
  {
  }

  lemma NoSlot(arr: seq<Entry>, size: nat, ins: nat, w: Task)
    requires size <= |arr| && ins < |arr|
    ensures Known(FifoOf(arr, size, ins), w) <==> exists j :: 0 <= j < size && Same(arr[j].task, w)
  {
    hide FifoOf;
    var f := FifoOf(arr, size, ins);
    if i :| 0 <= i < |f| && Same(f[i].task, w) {
      SlotOfFifo(arr, size, ins, f[i]);
    }
    if j :| 0 <= j < size && Same(arr[j].task, w) {
      assert arr[..size][j] == arr[j];
      SlotOfFifo(arr, size, ins, arr[j]);
    }
  }

  lemma BumpKeys(arr: seq<Entry>, size: nat, i: nat, w: Task)
    requires i < size <= |arr| && DistinctKeys(arr[..size]) && Same(arr[i].task, w)
    ensures var after := arr[i := Entry(arr[i].task, arr[i].load + 1)];
            && DistinctKeys(after[..size])
            && forall j :: 0 <= j < size ==> after[j] == Bumped(arr[j], w)
  {
  }

  lemma BumpRead(arr: seq<Entry>, after: seq<Entry>, size: nat, ins: nat, w: Task)
    requires |arr| == |after| && size <= |arr| && ins < |arr|
    requires forall j :: 0 <= j < size ==> after[j] == Bumped(arr[j], w)
    ensures FifoOf(after, size, ins) == Bump(FifoOf(arr, size, ins), w)
  {
  }

  /** Bumping the one slot of a waker bumps the list. */
  lemma BumpSlot(arr: seq<Entry>, size: nat, ins: nat, i: nat, w: Task)
    requires i < size <= |arr| && ins < |arr|
    requires DistinctKeys(arr[..size]) && Same(arr[i].task, w)
    ensures var after := arr[i := Entry(arr[i].task, arr[i].load + 1)];
            && Known(FifoOf(arr, size, ins), w)
            && DistinctKeys(after[..size])
            && after[i] in FifoOf(after, size, ins)
            && FifoOf(after, size, ins) == Bump(FifoOf(arr, size, ins), w)
  {
    hide FifoOf, Known, DistinctKeys, Bump;
    var after := arr[i := Entry(arr[i].task, arr[i].load + 1)];
    NoSlot(arr, size, ins, w);
    BumpKeys(arr, size, i, w);
    BumpRead(arr, after, size, ins, w);
    assert after[..size][i] == after[i];
    SlotOfFifo(after, size, ins, after[i]);
  }

  lemma InsertedFifo(before: seq<Entry>, size: nat, ins: nat, e: Entry)
    requires |before| == MAX_DEP_ARR_SIZE && size <= |before| && ins < |before|
    requires size < |before| ==> ins == size
    ensures FifoOf(before[ins := e], if size == |before| then size else size + 1, (ins + 1) % |before|)
         == Survivors(FifoOf(before, size, ins)) + [e]
  {
    if size < |before| {
      InsertedFilling(before, ins, e);
    } else {
      InsertedFull(before, ins, e);
    }
  }

  lemma InsertedFilling(before: seq<Entry>, ins: nat, e: Entry)
    requires |before| == MAX_DEP_ARR_SIZE && ins < |before|
    ensures FifoOf(before[ins := e], ins + 1, (ins + 1) % |before|) == before[..ins] + [e]
  {
  }

  lemma InsertedFull(before: seq<Entry>, ins: nat, e: Entry)
    requires |before| == MAX_DEP_ARR_SIZE && ins < |before|
    ensures FifoOf(before[ins := e], |before|, (ins + 1) % |before|) == FifoOf(before, |before|, ins)[1..] + [e]
  {
  }

  lemma InsertedKeys(before: seq<Entry>, size: nat, ins: nat, e: Entry)
    requires size <= |before| && ins < |before| && (size < |before| ==> ins == size)
    requires DistinctKeys(before[..size])
    requires forall j :: 0 <= j < size ==> !Same(before[j].task, e.task)
    ensures DistinctKeys(before[ins := e][..if size == |before| then size else size + 1])
  {
  }
}
