/** The key-task BPF programs: maps shared by four tracepoints and the messages they send. */
module KeyTask {
  import opened KeyTaskRing

  const LOAD_THRESHOLD := 120
  const MAX_KEY_TASKS := 64
  const MAX_DEP_LISTS := 64
  const MAX_REPORTS := 1024

  datatype Kind = OverThreshold | KeyComm | KeyDel | KeyRegexComm

  datatype Msg = Msg(kind: Kind, pid: int, tgid: int)

  /** `heard` is bookkeeping: the wake-ups counted for a key task since its record was made. */
  datatype State = State(
    keyTasks: map<int, Task>,
    report: map<int, int>,
    deps: map<int, seq<Entry>>,
    heard: map<int, seq<Task>>,
    keyComms: map<string, int>,
    regexes: int,
    enabled: bool,
    log: seq<Msg>)

  /** User space writes `keyComms`, `regexes` and `enabled`; the other events are tracepoints. */
  datatype Event =
    | OomScoreAdj(pid: int, comm: string, adj: int)
    | Rename(pid: int, curPid: int, curTgid: int, oldComm: string, newComm: string, adj: int)
    | Waking(wkePid: int, kthread: bool, waker: Task)
    | Free(pid: int)
    | SetKeyComms(comms: map<string, int>)
    | SetRegexes(count: int)
    | SetEnabled(on: bool)

  predicate IsTop(adj: int) {
    0 <= adj < 100 || adj == -1000
  }

  predicate IsBlack(comm: string) {
    "binder:" <= comm
  }

  /** `bpf_map_update_elem` on a bounded hash map: a new key needs room. */
  function Put<V>(m: map<int, V>, k: int, v: V, max: nat): map<int, V> {
    if k in m || |m| < max then m[k := v] else m
  }

  /** The same with `BPF_NOEXIST`. */
  function PutNew<V>(m: map<int, V>, k: int, v: V, max: nat): map<int, V> {
    if k !in m && |m| < max then m[k := v] else m
  }

  function OnOomScoreAdj(s: State, pid: int, comm: string, adj: int): State {
    if IsTop(adj) then s.(keyTasks := PutNew(s.keyTasks, pid, Task(pid, pid, comm), MAX_KEY_TASKS))
    else s.(keyTasks := s.keyTasks - {pid}, deps := s.deps - {pid}, heard := s.heard - {pid})
  }

  function Retract(s: State, pid: int, tgid: int): State {
    s.(log := s.log + [Msg(KeyDel, pid, tgid)], report := s.report - {pid})
  }

  function Announce(s: State, kind: Kind, pid: int, tgid: int): State {
    s.(log := s.log + [Msg(kind, pid, tgid)], report := Put(s.report, pid, tgid, MAX_REPORTS))
  }

  /** A renamed thread that was reported under a key name and changes it. */
  function RenameAway(s: State, pid: int, tgid: int, oldComm: string): State {
    if oldComm in s.keyComms && pid in s.report then Retract(s, pid, tgid) else s
  }

  function RenameTo(s: State, pid: int, tgid: int, newComm: string): State {
    if newComm in s.keyComms && pid !in s.report then
      var a := Announce(s, KeyComm, pid, tgid);
      if s.keyComms[newComm] != 0 then
        a.(keyTasks := PutNew(a.keyTasks, pid, Task(pid, tgid, newComm), MAX_KEY_TASKS))
      else a
    else s
  }

  function RenameRegex(s: State, pid: int, tgid: int, adj: int): State {
    if IsTop(adj) && s.regexes != 0 then s.(log := s.log + [Msg(KeyRegexComm, pid, tgid)]) else s
  }

  function OnRename(s: State, pid: int, curPid: int, tgid: int, oldComm: string, newComm: string, adj: int): State {
    if pid in s.keyTasks then s.(keyTasks := s.keyTasks[pid := s.keyTasks[pid].(comm := newComm)])
    else if pid != curPid then s
    else if oldComm in s.keyComms && pid in s.report && oldComm == newComm then s
    else RenameRegex(RenameTo(RenameAway(s, pid, tgid, oldComm), pid, tgid, newComm), pid, tgid, adj)
  }

  /** A wake-up of a key task by a user thread of its own process, other than a binder thread. */
  predicate Counts(s: State, wkePid: int, kthread: bool, w: Task) {
    s.enabled && !kthread && wkePid in s.keyTasks && w.tgid == s.keyTasks[wkePid].tgid && !IsBlack(w.comm)
  }

  function LoadOf(f: seq<Entry>, w: Task): nat {
    if f == [] then 0 else if Same(f[0].task, w) then f[0].load else LoadOf(f[1..], w)
  }

  /** A known waker that reaches the threshold and is not reported yet. */
  predicate Exceeds(s: State, wkePid: int, w: Task) {
    wkePid in s.deps && Known(s.deps[wkePid], w)
    && LoadOf(Wake(s.deps[wkePid], w), w) >= LOAD_THRESHOLD && w.pid !in s.report
  }

  function CountWake(s: State, wkePid: int, w: Task): State {
    if wkePid !in s.deps then
      s.(deps := PutNew(s.deps, wkePid, Wake([], w), MAX_DEP_LISTS), heard := s.heard[wkePid := [w]])
    else
      s.(deps := s.deps[wkePid := Wake(s.deps[wkePid], w)],
         heard := s.heard[wkePid := (if wkePid in s.heard then s.heard[wkePid] else []) + [w]])
  }

  function OnWaking(s: State, wkePid: int, kthread: bool, w: Task): State {
    if !Counts(s, wkePid, kthread, w) then s
    else if Exceeds(s, wkePid, w) then Announce(CountWake(s, wkePid, w), OverThreshold, w.pid, w.tgid)
    else CountWake(s, wkePid, w)
  }

  function OnFree(s: State, pid: int): State {
    var t := s.(keyTasks := s.keyTasks - {pid}, deps := s.deps - {pid}, heard := s.heard - {pid});
    if pid in s.report then Retract(t, pid, s.report[pid]) else t
  }

  function Step(s: State, e: Event): State {
    match e
    case OomScoreAdj(pid, comm, adj) => OnOomScoreAdj(s, pid, comm, adj)
    case Rename(pid, curPid, curTgid, oldComm, newComm, adj) => OnRename(s, pid, curPid, curTgid, oldComm, newComm, adj)
    case Waking(wkePid, kthread, waker) => OnWaking(s, wkePid, kthread, waker)
    case Free(pid) => OnFree(s, pid)
    case SetKeyComms(comms) => s.(keyComms := comms)
    case SetRegexes(count) => s.(regexes := count)
    case SetEnabled(on) => s.(enabled := on)
  }

  // ---------------------------------------------------------------- the report protocol

  /** The reports (true) and retractions (false) sent for one pid, in order. */
  function Reports(log: seq<Msg>, pid: int): seq<bool> {
    if log == [] then []
    else
      var m := log[|log| - 1];
      Reports(log[..|log| - 1], pid) + if m.pid == pid && !m.kind.KeyRegexComm? then [!m.kind.KeyDel?] else []
  }

  ghost predicate Alternates(r: seq<bool>) {
    forall i :: 0 <= i < |r| ==> (r[i] <==> i % 2 == 0)
  }

  /** For every pid, reports and retractions alternate, a report first, and the report map holds
      exactly the pids whose last message is a report. */
  ghost predicate Protocol(log: seq<Msg>, report: map<int, int>) {
    forall pid :: Alternates(Reports(log, pid)) && (pid in report <==> |Reports(log, pid)| % 2 == 1)
  }

  lemma ReportsExtend(log: seq<Msg>, m: Msg, pid: int)
    ensures Reports(log + [m], pid) ==
              Reports(log, pid) + if m.pid == pid && !m.kind.KeyRegexComm? then [!m.kind.KeyDel?] else []
  {
  }

  lemma AnnounceReports(s: State, kind: Kind, pid: int, tgid: int)
    requires kind.OverThreshold? || kind.KeyComm?
    ensures forall p ::
              Reports(Announce(s, kind, pid, tgid).log, p) == Reports(s.log, p) + if p == pid then [true] else []
  {
    hide Reports;
    forall p
      ensures Reports(Announce(s, kind, pid, tgid).log, p) == Reports(s.log, p) + if p == pid then [true] else []
    {
      ReportsExtend(s.log, Msg(kind, pid, tgid), p);
    }
  }

  lemma AnnounceKeeps(s: State, kind: Kind, pid: int, tgid: int)
    requires Protocol(s.log, s.report) && pid !in s.report && (kind.OverThreshold? || kind.KeyComm?)
    ensures Protocol(Announce(s, kind, pid, tgid).log, Announce(s, kind, pid, tgid).report) <==>
              |s.report| < MAX_REPORTS
  {
    hide Reports;
    var a := Announce(s, kind, pid, tgid);
    AnnounceReports(s, kind, pid, tgid);
    if |s.report| >= MAX_REPORTS {
      assert |Reports(a.log, pid)| % 2 == 1 && pid !in a.report;
    }
  }

  lemma RetractKeeps(s: State, pid: int, tgid: int)
    requires Protocol(s.log, s.report) && pid in s.report
    ensures Protocol(Retract(s, pid, tgid).log, Retract(s, pid, tgid).report)
  {
    hide Reports;
    var a := Retract(s, pid, tgid);
    forall p
      ensures Reports(a.log, p) == Reports(s.log, p) + if p == pid then [false] else []
    {
      ReportsExtend(s.log, Msg(KeyDel, pid, tgid), p);
    }
  }

  lemma RegexKeeps(s: State, pid: int, tgid: int, adj: int)
    ensures Protocol(RenameRegex(s, pid, tgid, adj).log, RenameRegex(s, pid, tgid, adj).report)
        <==> Protocol(s.log, s.report)
  {
    hide Reports;
    var a := RenameRegex(s, pid, tgid, adj);
    forall p
      ensures Reports(a.log, p) == Reports(s.log, p)
    {
      ReportsExtend(s.log, Msg(KeyRegexComm, pid, tgid), p);
    }
    assert a.report == s.report;
    assert Protocol(s.log, s.report) ==>
             forall p :: Alternates(Reports(s.log, p)) && (p in s.report <==> |Reports(s.log, p)| % 2 == 1);
  }

  /** The step is about to report a pid that is not in the report map. */
  predicate IsReporting(s: State, e: Event) {
    match e
    case Rename(pid, curPid, _, oldComm, newComm, _) =>
      pid !in s.keyTasks && pid == curPid && newComm in s.keyComms && pid !in s.report
    case Waking(wkePid, kthread, waker) => Counts(s, wkePid, kthread, waker) && Exceeds(s, wkePid, waker)
    case OomScoreAdj(_, _, _) => false
    case Free(_) => false
    case SetKeyComms(_) => false
    case SetRegexes(_) => false
    case SetEnabled(_) => false
  }

  lemma AwayKeepsProtocol(s: State, pid: int, tgid: int, oldComm: string)
    requires Protocol(s.log, s.report) && |s.report| <= MAX_REPORTS
    ensures var t := RenameAway(s, pid, tgid, oldComm);
            && Protocol(t.log, t.report) && t.keyComms == s.keyComms
            && if oldComm in s.keyComms && pid in s.report then pid !in t.report && |t.report| < MAX_REPORTS
               else t.report == s.report
  {
    hide Protocol;
    if pid in s.report {
      RetractKeeps(s, pid, tgid);
      RemovalMakesRoom(s.report, pid);
    }
  }

  lemma ToKeepsProtocol(s: State, pid: int, tgid: int, newComm: string)
    requires Protocol(s.log, s.report)
    ensures var t := RenameTo(s, pid, tgid, newComm);
            Protocol(t.log, t.report) <==> !(newComm in s.keyComms && pid !in s.report && |s.report| >= MAX_REPORTS)
  {
    hide Protocol, Announce;
    if pid !in s.report {
      AnnounceKeeps(s, KeyComm, pid, tgid);
    }
  }

  lemma RenameKeepsProtocol(s: State, pid: int, curPid: int, tgid: int, oldComm: string, newComm: string, adj: int)
    requires Protocol(s.log, s.report) && |s.report| <= MAX_REPORTS
    ensures var t := OnRename(s, pid, curPid, tgid, oldComm, newComm, adj);
            Protocol(t.log, t.report) <==>
              !(IsReporting(s, Rename(pid, curPid, tgid, oldComm, newComm, adj)) && |s.report| >= MAX_REPORTS)
  {
    hide Protocol, RenameAway, RenameTo, RenameRegex;
    var a := RenameAway(s, pid, tgid, oldComm);
    AwayKeepsProtocol(s, pid, tgid, oldComm);
    ToKeepsProtocol(a, pid, tgid, newComm);
    RegexKeeps(RenameTo(a, pid, tgid, newComm), pid, tgid, adj);
  }

  lemma RemovalMakesRoom(m: map<int, int>, k: int)
    requires k in m
    ensures |m - {k}| == |m| - 1
  {
  }

  lemma WakingKeepsProtocol(s: State, wkePid: int, kthread: bool, w: Task)
    requires Protocol(s.log, s.report)
    ensures var t := OnWaking(s, wkePid, kthread, w);
            && (Protocol(t.log, t.report) <==>
                  !(Counts(s, wkePid, kthread, w) && Exceeds(s, wkePid, w) && |s.report| >= MAX_REPORTS))
            && (|s.report| <= MAX_REPORTS ==> |t.report| <= MAX_REPORTS)
  {
    hide Protocol, Counts, Wake, Known;
    if Exceeds(s, wkePid, w) {
      AnnounceKeeps(CountWake(s, wkePid, w), OverThreshold, w.pid, w.tgid);
    }
  }

  lemma FreeKeepsProtocol(s: State, pid: int)
    requires Protocol(s.log, s.report)
    ensures var t := OnFree(s, pid); Protocol(t.log, t.report) && |t.report| <= |s.report|
  {
    hide Protocol;
    if pid in s.report {
      RetractKeeps(s.(keyTasks := s.keyTasks - {pid}, deps := s.deps - {pid}, heard := s.heard - {pid}), pid,
          s.report[pid]);
      RemovalMakesRoom(s.report, pid);
    }
  }

  /** A step keeps the report protocol exactly when it does not report into a full map: the message
      is sent all the same, and nothing remembers it. */
  lemma StepKeepsProtocol(s: State, e: Event)
    requires Protocol(s.log, s.report) && |s.report| <= MAX_REPORTS
    ensures Protocol(Step(s, e).log, Step(s, e).report) <==> !(IsReporting(s, e) && |s.report| >= MAX_REPORTS)
    ensures |Step(s, e).report| <= MAX_REPORTS
  {
    hide Protocol, OnRename, OnWaking, OnFree, Exceeds, Counts;
    if e.Rename? {
      RenameKeepsProtocol(s, e.pid, e.curPid, e.curTgid, e.oldComm, e.newComm, e.adj);
      RenameBounded(s, e);
    } else if e.Waking? {
      WakingKeepsProtocol(s, e.wkePid, e.kthread, e.waker);
    } else if e.Free? {
      FreeKeepsProtocol(s, e.pid);
    }
  }

  /** What renaming may touch besides the log. */
  lemma RenameTouches(s: State, pid: int, curPid: int, tgid: int, oldComm: string, newComm: string, adj: int)
    requires pid !in s.keyTasks
    ensures var t := OnRename(s, pid, curPid, tgid, oldComm, newComm, adj);
            && t.deps == s.deps && t.heard == s.heard
            && (t.keyTasks == s.keyTasks ||
                t.keyTasks == PutNew(s.keyTasks, pid, Task(pid, tgid, newComm), MAX_KEY_TASKS))
            && (|s.report| <= MAX_REPORTS ==> |t.report| <= MAX_REPORTS)
  {
    hide RenameAway, RenameTo, RenameRegex, PutNew;
    var a := RenameAway(s, pid, tgid, oldComm);
    AwayTouches(s, pid, tgid, oldComm);
    ToTouches(a, pid, tgid, newComm);
    RegexTouches(RenameTo(a, pid, tgid, newComm), pid, tgid, adj);
  }

  lemma AwayTouches(s: State, pid: int, tgid: int, oldComm: string)
    ensures var t := RenameAway(s, pid, tgid, oldComm);
            t.deps == s.deps && t.heard == s.heard && t.keyTasks == s.keyTasks && |t.report| <= |s.report|
  {
  }

  lemma ToTouches(s: State, pid: int, tgid: int, newComm: string)
    ensures var t := RenameTo(s, pid, tgid, newComm);
            && t.deps == s.deps && t.heard == s.heard
            && (t.keyTasks == s.keyTasks ||
                t.keyTasks == PutNew(s.keyTasks, pid, Task(pid, tgid, newComm), MAX_KEY_TASKS))
            && (|s.report| <= MAX_REPORTS ==> |t.report| <= MAX_REPORTS)
  {
    hide Put, PutNew;
    PutBounded(s.report, pid, tgid, MAX_REPORTS);
  }

  lemma RegexTouches(s: State, pid: int, tgid: int, adj: int)
    ensures var t := RenameRegex(s, pid, tgid, adj);
            t.deps == s.deps && t.heard == s.heard && t.keyTasks == s.keyTasks && t.report == s.report
  {
  }

  lemma PutBounded(m: map<int, int>, k: int, v: int, max: nat)
    ensures |m| <= max ==> |Put(m, k, v, max)| <= max
  {
  }

  lemma RenameBounded(s: State, e: Event)
    requires |s.report| <= MAX_REPORTS && e.Rename?
    ensures |Step(s, e).report| <= MAX_REPORTS
  {
    hide OnRename;
    if e.pid !in s.keyTasks {
      RenameTouches(s, e.pid, e.curPid, e.curTgid, e.oldComm, e.newComm, e.adj);
    } else {
      RenameKeyTask(s, e.pid, e.curPid, e.curTgid, e.oldComm, e.newComm, e.adj);
    }
  }

  lemma RenameKeyTask(s: State, pid: int, curPid: int, tgid: int, oldComm: string, newComm: string, adj: int)
    requires pid in s.keyTasks
    ensures OnRename(s, pid, curPid, tgid, oldComm, newComm, adj) ==
              s.(keyTasks := s.keyTasks[pid := s.keyTasks[pid].(comm := newComm)])
  {
  }

  /** Records of wakers exist for key tasks only, and each is what its wake-ups make of it. */
  ghost predicate Records(s: State) {
    && s.deps.Keys <= s.keyTasks.Keys && s.deps.Keys == s.heard.Keys
    && |s.keyTasks| <= MAX_KEY_TASKS
    && forall p :: p in s.deps ==> s.deps[p] == Replay(s.heard[p])
  }

  /** The map of records needs no room of its own: it never refuses a key task its record. */
  lemma RecordsFit(s: State, pid: int)
    requires Records(s) && pid in s.keyTasks && pid !in s.deps
    ensures |s.deps| < MAX_DEP_LISTS
  {
    hide Replay;
    SubsetSmaller(s.deps.Keys, s.keyTasks.Keys - {pid});
    assert |s.keyTasks.Keys - {pid}| == |s.keyTasks| - 1;
    assert |s.deps| == |s.deps.Keys|;
  }

  lemma {:induction false} SubsetSmaller<T>(a: set<T>, b: set<T>)
    requires a <= b
    ensures |a| <= |b|
  {
    if |a| > 0 {
      var x :| x in a;
      SubsetSmaller(a - {x}, b - {x});
      assert |b - {x}| == |b| - 1;
    }
  }

  lemma RemovalKeepsRecords(s: State, pid: int)
    requires Records(s)
    ensures Records(s.(keyTasks := s.keyTasks - {pid}, deps := s.deps - {pid}, heard := s.heard - {pid}))
  {
  }

  lemma WakeKeepsRecords(s: State, wkePid: int, w: Task)
    requires Records(s) && wkePid in s.keyTasks
    ensures Records(CountWake(s, wkePid, w))
    ensures wkePid in CountWake(s, wkePid, w).deps
  {
    hide Wake;
    if wkePid !in s.deps {
      RecordsFit(s, wkePid);
      assert Replay([w]) == Wake(Replay([]), w);
    } else {
      var h := s.heard[wkePid];
      assert (h + [w])[..|h|] == h;
    }
  }

  lemma NewKeyTaskKeepsRecords(s: State, pid: int, t: Task)
    requires Records(s)
    ensures Records(s.(keyTasks := PutNew(s.keyTasks, pid, t, MAX_KEY_TASKS)))
    ensures pid in s.keyTasks ==> Records(s.(keyTasks := s.keyTasks[pid := t]))
  {
  }

  lemma StepKeepsRecords(s: State, e: Event)
    requires Records(s)
    ensures Records(Step(s, e))
  {
    hide Records, OnRename, OnWaking, OnFree, PutNew;
    match e
    case OomScoreAdj(pid, comm, adj) =>
      NewKeyTaskKeepsRecords(s, pid, Task(pid, pid, comm));
      RemovalKeepsRecords(s, pid);
    case Rename(pid, curPid, curTgid, oldComm, newComm, adj) =>
      RenameKeepsRecords(s, e);
    case Waking(wkePid, kthread, waker) =>
      WakingKeepsRecords(s, wkePid, kthread, waker);
    case Free(pid) =>
      FreeKeepsRecords(s, pid);
    case SetKeyComms(comms) =>
      SameRecords(s, Step(s, e));
    case SetRegexes(count) =>
      SameRecords(s, Step(s, e));
    case SetEnabled(on) =>
      SameRecords(s, Step(s, e));
  }

  lemma WakingKeepsRecords(s: State, wkePid: int, kthread: bool, w: Task)
    requires Records(s)
    ensures Records(OnWaking(s, wkePid, kthread, w))
  {
    hide Records, CountWake, Exceeds, Put;
    if Counts(s, wkePid, kthread, w) {
      WakeKeepsRecords(s, wkePid, w);
      SameRecords(CountWake(s, wkePid, w), OnWaking(s, wkePid, kthread, w));
    }
  }

  lemma FreeKeepsRecords(s: State, pid: int)
    requires Records(s)
    ensures Records(OnFree(s, pid))
  {
    hide Records;
    RemovalKeepsRecords(s, pid);
    SameRecords(s.(keyTasks := s.keyTasks - {pid}, deps := s.deps - {pid}, heard := s.heard - {pid}), OnFree(s, pid));
  }

  lemma SameRecords(s: State, t: State)
    requires Records(s) && t.keyTasks == s.keyTasks && t.deps == s.deps && t.heard == s.heard
    ensures Records(t)
  {
  }

  lemma RenameKeepsRecords(s: State, e: Event)
    requires Records(s) && e.Rename?
    ensures Records(Step(s, e))
  {
    hide Records, OnRename, PutNew;
    var pid, tgid, t := e.pid, e.curTgid, Step(s, e);
    if pid in s.keyTasks {
      RenameKeyTask(s, pid, e.curPid, tgid, e.oldComm, e.newComm, e.adj);
      NewKeyTaskKeepsRecords(s, pid, s.keyTasks[pid].(comm := e.newComm));
    } else {
      RenameTouches(s, pid, e.curPid, tgid, e.oldComm, e.newComm, e.adj);
      var n := s.(keyTasks := PutNew(s.keyTasks, pid, Task(pid, tgid, e.newComm), MAX_KEY_TASKS));
      NewKeyTaskKeepsRecords(s, pid, Task(pid, tgid, e.newComm));
      SameRecords(if t.keyTasks == s.keyTasks then s else n, t);
    }
  }

  // ---------------------------------------------------------------- whole runs

  const BOOT := State(map[], map[], map[], map[], map[], 0, false, [])

  function Run(events: seq<Event>): State {
    if events == [] then BOOT else Step(Run(events[..|events| - 1]), events[|events| - 1])
  }

  ghost predicate NeverFull(events: seq<Event>) {
    forall k :: 0 <= k < |events| ==>
                  !(IsReporting(Run(events[..k]), events[k]) && |Run(events[..k]).report| >= MAX_REPORTS)
  }

  /** In every run in which no report meets a full map, the messages about every pid alternate
      between a report and a retraction, and the report map knows which pids are reported. */
  lemma {:induction false} EveryRunAlternates(events: seq<Event>)
    requires NeverFull(events)
    ensures Protocol(Run(events).log, Run(events).report)
    ensures |Run(events).report| <= MAX_REPORTS
  {
    if events != [] {
      var front := events[..|events| - 1];
      assert forall k :: 0 <= k < |front| ==> front[..k] == events[..k];
      EveryRunAlternates(front);
      StepKeepsProtocol(Run(front), events[|events| - 1]);
    }
  }

  ghost predicate ProtocolAfter(events: seq<Event>, k: nat) {
    k <= |events| && Protocol(Run(events[..k]).log, Run(events[..k]).report)
  }

  ghost predicate ProtocolAlong(events: seq<Event>) {
    forall k :: 0 <= k <= |events| ==> ProtocolAfter(events, k)
  }

  lemma ProtocolSplit(events: seq<Event>)
    requires events != []
    ensures ProtocolAlong(events) <==> ProtocolAlong(events[..|events| - 1]) && ProtocolAfter(events, |events|)
    ensures ProtocolAlong(events[..|events| - 1]) ==> ProtocolAfter(events, |events| - 1)
  {
    var front := events[..|events| - 1];
    forall k | 0 <= k <= |front|
      ensures ProtocolAfter(front, k) == ProtocolAfter(events, k)
    {
      assert front[..k] == events[..k];
    }
    hide ProtocolAfter;
  }

  lemma NeverFullSplit(events: seq<Event>)
    requires events != []
    ensures var front, e := events[..|events| - 1], events[|events| - 1];
            NeverFull(events) <==>
              NeverFull(front) && !(IsReporting(Run(front), e) && |Run(front).report| >= MAX_REPORTS)
  {
    hide IsReporting, Run;
    var front := events[..|events| - 1];
    assert forall k :: 0 <= k < |front| ==> front[..k] == events[..k];
  }

  /** The protocol holds after every step of a run if and only if no report of it meets a full map. */
  lemma {:induction false} ProtocolHoldsExactly(events: seq<Event>)
    ensures ProtocolAlong(events) <==> NeverFull(events)
  {
    hide ProtocolAlong, NeverFull, Protocol, Run, Step, IsReporting;
    if events == [] {
      BootKeepsProtocol();
    } else {
      var front := events[..|events| - 1];
      ProtocolHoldsExactly(front);
      ProtocolSplit(events);
      NeverFullSplit(events);
      if NeverFull(front) {
        EveryRunAlternates(front);
        LastKeepsProtocol(events);
      }
    }
  }

  lemma BootKeepsProtocol()
    ensures ProtocolAlong([]) && NeverFull([])
  {
    EveryRunAlternates([]);
  }

  lemma LastKeepsProtocol(events: seq<Event>)
    requires events != [] && Protocol(Run(events[..|events| - 1]).log, Run(events[..|events| - 1]).report)
    requires |Run(events[..|events| - 1]).report| <= MAX_REPORTS
    ensures var front, e := events[..|events| - 1], events[|events| - 1];
            ProtocolAfter(events, |events|) <==> !(IsReporting(Run(front), e) && |Run(front).report| >= MAX_REPORTS)
  {
    hide Protocol, Step, IsReporting;
    assert events[..|events|] == events;
    StepKeepsProtocol(Run(events[..|events| - 1]), events[|events| - 1]);
  }

  lemma {:induction false} EveryRunKeepsRecords(events: seq<Event>)
    ensures Records(Run(events))
  {
    if events != [] {
      EveryRunKeepsRecords(events[..|events| - 1]);
      StepKeepsRecords(Run(events[..|events| - 1]), events[|events| - 1]);
    }
  }

  lemma {:induction false} LoadOfEntry(f: seq<Entry>, w: Task) returns (i: nat)
    requires LoadOf(f, w) > 0
    ensures i < |f| && Same(f[i].task, w) && f[i].load == LoadOf(f, w)
  {
    if Same(f[0].task, w) {
      i := 0;
    } else {
      var j := LoadOfEntry(f[1..], w);
      i := j + 1;
    }
  }

  /** A waker is reported over the threshold only after it woke the key task that often since it
      last entered that task's record. */
  lemma ReportedWakersAreBusy(events: seq<Event>, wkePid: int, kthread: bool, w: Task) returns (k: nat)
    requires Counts(Run(events), wkePid, kthread, w) && Exceeds(Run(events), wkePid, w)
    ensures var h := OnWaking(Run(events), wkePid, kthread, w).heard[wkePid];
            EnteredLast(h, k) && Same(h[k], w) && Count(h[k..], h[k]) >= LOAD_THRESHOLD
  {
    hide Wake, Known;
    var s := Run(events);
    EveryRunKeepsRecords(events);
    WakeKeepsRecords(s, wkePid, w);
    var t := CountWake(s, wkePid, w);
    var i := LoadOfEntry(t.deps[wkePid], w);
    k := LoadsCount(t.heard[wkePid], i);
  }

  // ---------------------------------------------------------------- the programs and their maps

  lemma {:induction false} LoadOfUnique(f: seq<Entry>, e: Entry, w: Task)
    requires DistinctKeys(f) && e in f && Same(e.task, w)
    ensures LoadOf(f, w) == e.load
  {
    if Same(f[0].task, w) {
      var i :| 0 <= i < |f| && f[i] == e;
      assert i == 0;
    } else {
      LoadOfUnique(f[1..], e, w);
    }
  }

  // ---------------------------------------------------------------- what each program does

  /** Whose wake-ups a key task's record may name: user threads of its own process, binder threads not
      among them. */
  ghost predicate OwnWakers(f: seq<Entry>, tgid: int) {
    forall i :: 0 <= i < |f| ==> f[i].task.tgid == tgid && !("binder:" <= f[i].task.comm)
  }

  ghost predicate OnlyOwnWakers(s: State) {
    s.deps.Keys <= s.keyTasks.Keys && forall p :: p in s.deps ==> OwnWakers(s.deps[p], s.keyTasks[p].tgid)
  }

  lemma WakeKeepsWakers(f: seq<Entry>, w: Task, tgid: int)
    requires OwnWakers(f, tgid) && w.tgid == tgid && !("binder:" <= w.comm)
    ensures OwnWakers(Wake(f, w), tgid)
  {
    hide Known;
  }

  lemma WakingKeepsWakers(s: State, wkePid: int, kthread: bool, w: Task)
    requires OnlyOwnWakers(s)
    ensures OnlyOwnWakers(OnWaking(s, wkePid, kthread, w))
  {
    hide Wake, Exceeds, Put, OwnWakers;
    if Counts(s, wkePid, kthread, w) {
      var f := if wkePid in s.deps then s.deps[wkePid] else [];
      NoWakers(w.tgid);
      WakeKeepsWakers(f, w, w.tgid);
    }
  }

  lemma NoWakers(tgid: int)
    ensures OwnWakers([], tgid)
  {
  }

  lemma RenameKeepsWakers(s: State, e: Event)
    requires OnlyOwnWakers(s) && e.Rename?
    ensures OnlyOwnWakers(Step(s, e))
  {
    hide OnRename, OwnWakers;
    if e.pid in s.keyTasks {
      RenameKeyTask(s, e.pid, e.curPid, e.curTgid, e.oldComm, e.newComm, e.adj);
    } else {
      RenameTouches(s, e.pid, e.curPid, e.curTgid, e.oldComm, e.newComm, e.adj);
    }
  }

  lemma StepKeepsWakers(s: State, e: Event)
    requires OnlyOwnWakers(s)
    ensures OnlyOwnWakers(Step(s, e))
  {
    hide OnRename, OnWaking, OwnWakers;
    if e.Rename? {
      RenameKeepsWakers(s, e);
    } else if e.Waking? {
      WakingKeepsWakers(s, e.wkePid, e.kthread, e.waker);
    }
  }

  /** Over every run the record of a key task names threads of that task's own process only, and no
      binder thread. */
  lemma {:induction false} EveryRunNamesOwnWakers(events: seq<Event>)
    ensures OnlyOwnWakers(Run(events))
  {
    if events != [] {
      EveryRunNamesOwnWakers(events[..|events| - 1]);
      StepKeepsWakers(Run(events[..|events| - 1]), events[|events| - 1]);
    }
  }

  /** A wake-up of a key task that should count, in the terms of the tracepoint. */
  predicate ByOwnThread(s: State, wkePid: int, kthread: bool, w: Task) {
    && s.enabled && !kthread && wkePid in s.keyTasks && w.tgid == s.keyTasks[wkePid].tgid
    && !("binder:" <= w.comm)
  }

  /** The load of `w` in a record, 0 if it is not named. */
  ghost predicate HasLoad(f: seq<Entry>, w: Task, load: nat) {
    && (forall i :: 0 <= i < |f| && Same(f[i].task, w) ==> f[i].load == load)
    && (load == 0 <==> forall i :: 0 <= i < |f| ==> !Same(f[i].task, w))
  }

  ghost function RecordOf(s: State, p: int): seq<Entry> {
    if p in s.deps then s.deps[p] else []
  }

  lemma WakeCounts(f: seq<Entry>, w: Task, load: nat)
    requires HasLoad(f, w, load)
    ensures HasLoad(Wake(f, w), w, load + 1)
    ensures Known(f, w) <==> load > 0
  {
    if Known(f, w) {
      var i :| 0 <= i < |f| && Same(f[i].task, w);
      assert Same(Wake(f, w)[i].task, w);
    } else {
      var r := Wake(f, w);
      assert r[|r| - 1] == Entry(w, 1);
    }
  }

  lemma LoadIs(f: seq<Entry>, w: Task, load: nat)
    requires HasLoad(f, w, load) && load > 0
    ensures LoadOf(f, w) == load
  {
    if f != [] && !Same(f[0].task, w) {
      LoadIs(f[1..], w, load);
    }
  }

  /** Two maps agree everywhere but at `k`. */
  ghost predicate SameBut<V>(m: map<int, V>, n: map<int, V>, k: int) {
    forall q :: q != k ==> (q in m <==> q in n) && (q in m ==> m[q] == n[q])
  }

  lemma PutAt<V>(m: map<int, V>, k: int, v: V, max: nat)
    ensures var r := Put(m, k, v, max);
            SameBut(r, m, k) && (k in r <==> k in m || |m| < max) && (k in r ==> r[k] == v)
  {
  }

  lemma PutNewAt<V>(m: map<int, V>, k: int, v: V, max: nat)
    ensures var r := PutNew(m, k, v, max);
            && SameBut(r, m, k) && (k in r <==> k in m || |m| < max)
            && (k in r ==> r[k] == if k in m then m[k] else v)
  {
  }

  lemma RemovedAt<V>(m: map<int, V>, k: int)
    ensures SameBut(m - {k}, m, k) && k !in m - {k}
    ensures |m - {k}| == |m| - (if k in m then 1 else 0)
  {
    if k in m {
      assert m.Keys == (m - {k}).Keys + {k};
    } else {
      assert m - {k} == m;
    }
  }

  lemma SameAt<V>(m: map<int, V>, k: int)
    ensures SameBut(m, m, k)
  {
  }

  lemma SameButAgain<V>(l: map<int, V>, m: map<int, V>, n: map<int, V>, k: int)
    requires SameBut(l, m, k) && SameBut(m, n, k)
    ensures SameBut(l, n, k)
  {
  }

  /** A wake-up of a key task by a user thread of its own process counts: the record then has the waker,
      with one wake-up more; if that makes 120 or more and the thread is not reported, a report is
      sent. Any other wake-up changes nothing. */
  lemma WakingComputes(s: State, wkePid: int, kthread: bool, w: Task, load: nat)
    requires Records(s) && HasLoad(RecordOf(s, wkePid), w, load)
    ensures var u := OnWaking(s, wkePid, kthread, w);
            if !ByOwnThread(s, wkePid, kthread, w) then u == s
            else
              var reports := load >= 119 && w.pid !in s.report;
              && wkePid in u.deps && HasLoad(u.deps[wkePid], w, load + 1)
              && u.log == (if reports then s.log + [Msg(OverThreshold, w.pid, w.tgid)] else s.log)
              && (w.pid in u.report <==> w.pid in s.report || (reports && |s.report| < 1024))
              && u.keyTasks == s.keyTasks && SameBut(u.deps, s.deps, wkePid) && SameBut(u.report, s.report, w.pid)
  {
    hide Wake, Known, LoadOf, Replay, HasLoad, CountWake, Exceeds, Put, SameBut;
    if ByOwnThread(s, wkePid, kthread, w) {
      CountWakeComputes(s, wkePid, w, load);
      ExceedsExactly(s, wkePid, w, load);
      PutAt(s.report, w.pid, w.tgid, MAX_REPORTS);
      SameAt(s.report, w.pid);
      hide Records;
    }
  }

  lemma CountWakeComputes(s: State, wkePid: int, w: Task, load: nat)
    requires Records(s) && wkePid in s.keyTasks && HasLoad(RecordOf(s, wkePid), w, load)
    ensures var u := CountWake(s, wkePid, w);
            && wkePid in u.deps && HasLoad(u.deps[wkePid], w, load + 1)
            && u.keyTasks == s.keyTasks && u.report == s.report && u.log == s.log
            && SameBut(u.deps, s.deps, wkePid)
  {
    WakeCounts(RecordOf(s, wkePid), w, load);
    if wkePid !in s.deps {
      RecordsFit(s, wkePid);
    }
    hide Wake, Known, Records, HasLoad;
  }

  lemma ExceedsExactly(s: State, wkePid: int, w: Task, load: nat)
    requires HasLoad(RecordOf(s, wkePid), w, load)
    ensures Exceeds(s, wkePid, w) <==> load >= 119 && w.pid !in s.report
  {
    var f := RecordOf(s, wkePid);
    WakeCounts(f, w, load);
    LoadIs(Wake(f, w), w, load + 1);
    hide Wake, Known, LoadOf;
  }

  /** A task that is important enough becomes a key task, under its own pid, if there is room; one that
      is not stops being one, and its record goes with it. Nothing else changes. */
  lemma OomScoreAdjComputes(s: State, pid: int, comm: string, adj: int)
    ensures var u := OnOomScoreAdj(s, pid, comm, adj);
            var top := 0 <= adj < 100 || adj == -1000;
            && (pid in u.keyTasks <==> top && (pid in s.keyTasks || |s.keyTasks| < 64))
            && (pid in u.keyTasks ==>
                  u.keyTasks[pid] == if pid in s.keyTasks then s.keyTasks[pid] else Task(pid, pid, comm))
            && (if top then u.deps == s.deps else pid !in u.deps)
            && SameBut(u.keyTasks, s.keyTasks, pid) && SameBut(u.deps, s.deps, pid)
            && u.report == s.report && u.log == s.log
  {
    hide PutNew, SameBut;
    PutNewAt(s.keyTasks, pid, Task(pid, pid, comm), MAX_KEY_TASKS);
    RemovedAt(s.keyTasks, pid);
    RemovedAt(s.deps, pid);
    SameAt(s.deps, pid);
  }

  /** An exit leaves nothing of a pid in any map, and retracts it exactly if it was reported. */
  lemma FreeComputes(s: State, pid: int)
    ensures var u := OnFree(s, pid);
            && pid !in u.keyTasks && pid !in u.deps && pid !in u.report
            && SameBut(u.keyTasks, s.keyTasks, pid) && SameBut(u.deps, s.deps, pid) && SameBut(u.report, s.report, pid)
            && u.log == if pid in s.report then s.log + [Msg(KeyDel, pid, s.report[pid])] else s.log
  {
    hide SameBut;
    RemovedAt(s.keyTasks, pid);
    RemovedAt(s.deps, pid);
    RemovedAt(s.report, pid);
    SameAt(s.report, pid);
    if pid in s.report {
      assert OnFree(s, pid).report == s.report - {pid};
    } else {
      assert OnFree(s, pid).report == s.report;
    }
  }

  function If<T>(c: bool, x: T): seq<T> {
    if c then [x] else []
  }

  lemma AwayComputes(s: State, pid: int, tgid: int, oldComm: string)
    ensures var t, leaves := RenameAway(s, pid, tgid, oldComm), oldComm in s.keyComms && pid in s.report;
            && t == s.(log := s.log + If(leaves, Msg(KeyDel, pid, tgid)), report := t.report)
            && SameBut(t.report, s.report, pid) && |t.report| == |s.report| - (if leaves then 1 else 0)
            && (pid in t.report <==> pid in s.report && !leaves)
  {
    hide SameBut;
    RemovedAt(s.report, pid);
    SameAt(s.report, pid);
  }

  lemma ToComputes(s: State, pid: int, tgid: int, newComm: string)
    requires pid !in s.keyTasks
    ensures var t, takes := RenameTo(s, pid, tgid, newComm), newComm in s.keyComms && pid !in s.report;
            && t == s.(log := s.log + If(takes, Msg(KeyComm, pid, tgid)), report := t.report, keyTasks := t.keyTasks)
            && SameBut(t.report, s.report, pid) && SameBut(t.keyTasks, s.keyTasks, pid)
            && (pid in t.report <==> pid in s.report || (takes && |s.report| < 1024))
            && (takes && pid in t.report ==> t.report[pid] == tgid)
            && (pid in t.keyTasks <==> takes && s.keyComms[newComm] != 0 && |s.keyTasks| < 64)
            && (pid in t.keyTasks ==> t.keyTasks[pid] == Task(pid, tgid, newComm))
  {
    hide SameBut, Put, PutNew;
    PutAt(s.report, pid, tgid, MAX_REPORTS);
    PutNewAt(s.keyTasks, pid, Task(pid, tgid, newComm), MAX_KEY_TASKS);
    SameAt(s.report, pid);
    SameAt(s.keyTasks, pid);
  }

  lemma RegexComputes(s: State, pid: int, tgid: int, adj: int)
    ensures RenameRegex(s, pid, tgid, adj) ==
              s.(log := s.log + If((0 <= adj < 100 || adj == -1000) && s.regexes != 0, Msg(KeyRegexComm, pid, tgid)))
  {
  }

  /** A rename of a key task changes its name. One by another thread is ignored. A thread that renames
      itself is retracted if it was reported and leaves a key name for another, reported if it takes
      a key name and is not reported then, and shown to the regular expressions if there are any
      and it is important. It becomes a key task if its new name asks for that and there is room. */
  lemma RenameComputes(s: State, pid: int, curPid: int, tgid: int, oldComm: string, newComm: string, adj: int)
    ensures var u := OnRename(s, pid, curPid, tgid, oldComm, newComm, adj);
            var top := 0 <= adj < 100 || adj == -1000;
            var leaves := oldComm in s.keyComms && pid in s.report;
            var takes := newComm in s.keyComms && (pid in s.report ==> leaves);
            if pid in s.keyTasks then u == s.(keyTasks := s.keyTasks[pid := s.keyTasks[pid].(comm := newComm)])
            else if pid != curPid || (leaves && oldComm == newComm) then u == s
            else
              && u.log == s.log + If(leaves, Msg(KeyDel, pid, tgid)) + If(takes, Msg(KeyComm, pid, tgid))
                          + If(top && s.regexes != 0, Msg(KeyRegexComm, pid, tgid))
              && (pid in u.report <==>
                    (pid in s.report && !leaves) || (takes && |s.report| < if leaves then 1025 else 1024))
              && (takes && pid in u.report ==> u.report[pid] == tgid)
              && (pid in u.keyTasks <==> takes && s.keyComms[newComm] != 0 && |s.keyTasks| < 64)
              && (pid in u.keyTasks ==> u.keyTasks[pid] == Task(pid, tgid, newComm))
              && SameBut(u.keyTasks, s.keyTasks, pid) && SameBut(u.report, s.report, pid) && u.deps == s.deps
  {
    hide SameBut, RenameAway, RenameTo, RenameRegex, If;
    var a := RenameAway(s, pid, tgid, oldComm);
    AwayComputes(s, pid, tgid, oldComm);
    if pid !in s.keyTasks {
      var b := RenameTo(a, pid, tgid, newComm);
      ToComputes(a, pid, tgid, newComm);
      RegexComputes(b, pid, tgid, adj);
      SameButAgain(b.report, a.report, s.report, pid);
    }
  }

  /** Every record is well formed and shares no memory with another. */
  ghost predicate Separate(deps: map<int, DepArr>)
    reads deps.Values, set p | p in deps :: deps[p].arr
  {
    && (forall p :: p in deps ==> deps[p].Valid())
    && (forall p, q :: p in deps && q in deps && p != q ==> deps[p] != deps[q] && deps[p].arr != deps[q].arr)
  }

  ghost function Lists(deps: map<int, DepArr>): (r: map<int, seq<Entry>>)
    requires Separate(deps)
    reads deps.Values, set p | p in deps :: deps[p].arr
    ensures r.Keys == deps.Keys
  {
    map p | p in deps :: deps[p].Fifo()
  }

  lemma ListsWithout(deps: map<int, DepArr>, pid: int)
    requires Separate(deps)
    ensures Separate(deps - {pid}) && Lists(deps - {pid}) == Lists(deps) - {pid}
  {
  }

  lemma ReportUnchanged(s: State, wkePid: int, w: Task)
    ensures CountWake(s, wkePid, w).report == s.report
  {
  }

  class Programs {
    var keyTasks: map<int, Task>
    var report: map<int, int>
    var deps: map<int, DepArr>
    ghost var heard: map<int, seq<Task>>
    var keyComms: map<string, int>
    var regexes: int
    var enabled: bool
    var log: seq<Msg>

    ghost predicate Valid()
      reads this, deps.Values, set p | p in deps :: deps[p].arr
    {
      Separate(deps)
    }

    ghost function Value(): State
      requires Valid()
      reads this, deps.Values, set p | p in deps :: deps[p].arr
    {
      State(keyTasks, report, Lists(deps), heard, keyComms, regexes, enabled, log)
    }

    constructor ()
      ensures Valid() && Value() == BOOT
    {
      keyTasks, report, deps, heard, keyComms := map[], map[], map[], map[], map[];
      regexes, enabled, log := 0, false, [];
    }

    method TpOomScoreAdjUpdate(pid: int, comm: string, adj: int)
      requires Valid()
      modifies this
      ensures Valid() && Value() == OnOomScoreAdj(old(Value()), pid, comm, adj)
    {
      hide Separate, Lists, PutNew;
      if IsTop(adj) {
        keyTasks := PutNew(keyTasks, pid, Task(pid, pid, comm), MAX_KEY_TASKS);
        return;
      }
      ForgetTask(pid);
    }

    method ForgetTask(pid: int)
      requires Valid()
      modifies this
      ensures Valid()
      ensures Value() == old(Value()).(keyTasks := old(keyTasks) - {pid}, deps := old(Value()).deps - {pid},
          heard := old(heard) - {pid})
    {
      hide Separate, Lists;
      keyTasks := keyTasks - {pid};
      ListsWithout(deps, pid);
      deps := deps - {pid};
      heard := heard - {pid};
    }

    method TpTaskRename(pid: int, curPid: int, curTgid: int, oldComm: string, newComm: string, adj: int)
      requires Valid()
      modifies this
      ensures Valid() && Value() == OnRename(old(Value()), pid, curPid, curTgid, oldComm, newComm, adj)
    {
      hide Separate, Lists, RenameAway, RenameTo, RenameRegex;
      if pid in keyTasks {
        keyTasks := keyTasks[pid := keyTasks[pid].(comm := newComm)];
        return;
      }
      if pid != curPid {
        return;
      }
      var away := LeaveName(pid, curTgid, oldComm, newComm);
      if !away {
        return;
      }
      TakeName(pid, curTgid, newComm);
      ShowRegex(pid, curTgid, adj);
    }

    method LeaveName(pid: int, tgid: int, oldComm: string, newComm: string) returns (goOn: bool)
      requires Valid()
      modifies this
      ensures goOn <==> !(oldComm in old(keyComms) && pid in old(report) && oldComm == newComm)
      ensures Valid() && Value() == if goOn then RenameAway(old(Value()), pid, tgid, oldComm) else old(Value())
    {
      hide Separate, Lists;
      if oldComm in keyComms && pid in report {
        if newComm == oldComm {
          return false;
        }
        log := log + [Msg(KeyDel, pid, tgid)];
        report := report - {pid};
      }
      return true;
    }

    method TakeName(pid: int, tgid: int, newComm: string)
      requires Valid()
      modifies this
      ensures Valid() && Value() == RenameTo(old(Value()), pid, tgid, newComm)
    {
      hide Separate, Lists, Put, PutNew;
      if newComm in keyComms && pid !in report {
        log := log + [Msg(KeyComm, pid, tgid)];
        report := Put(report, pid, tgid, MAX_REPORTS);
        if keyComms[newComm] != 0 {
          keyTasks := PutNew(keyTasks, pid, Task(pid, tgid, newComm), MAX_KEY_TASKS);
        }
      }
    }

    method ShowRegex(pid: int, tgid: int, adj: int)
      requires Valid()
      modifies this
      ensures Valid() && Value() == RenameRegex(old(Value()), pid, tgid, adj)
    {
      hide Separate, Lists;
      if !IsTop(adj) {
        return;
      }
      if regexes != 0 {
        log := log + [Msg(KeyRegexComm, pid, tgid)];
      }
    }

    /** `update_dep` for a key task without a record: one is made, if the map has room. */
    method CountFirst(wkePid: int, w: Task)
      requires Valid() && wkePid !in deps
      modifies this
      ensures Valid() && Value() == CountWake(old(Value()), wkePid, w)
    {
      hide Separate, Lists, PutNew, Wake;
      deps := NewRecord(deps, wkePid, w);
      heard := heard[wkePid := [w]];
    }

    /** `update_dep` for a key task with a record. */
    method CountAgain(wkePid: int, w: Task) returns (slot: int, e: Entry)
      requires Valid() && wkePid in deps
      modifies this`heard, deps[wkePid], deps[wkePid].arr
      ensures Valid() && Value() == CountWake(old(Value()), wkePid, w)
      ensures slot != -1 <==> Known(old(Lists(deps)[wkePid]), w)
      ensures slot != -1 ==> Same(e.task, w) && e.load == LoadOf(Wake(old(Lists(deps)[wkePid]), w), w)
    {
      hide Separate, Lists, Known, Wake, LoadOf;
      slot, e := CountIn(deps, wkePid, w);
      heard := heard[wkePid := (if wkePid in heard then heard[wkePid] else []) + [w]];
    }

    /** `update_dep`: the wake-up is counted in the record of the woken key task, made at the first. */
    method CountWakeUp(wkePid: int, w: Task) returns (slot: int, e: Entry)
      requires Valid()
      modifies this, deps.Values, set p | p in deps :: deps[p].arr
      ensures Valid() && Value() == CountWake(old(Value()), wkePid, w)
      ensures slot != -1 <==> wkePid in old(deps) && Known(old(Lists(deps)[wkePid]), w)
      ensures slot != -1 ==> Same(e.task, w) && e.load == LoadOf(Wake(old(Lists(deps)[wkePid]), w), w)
    {
      hide Separate, Lists, CountWake, Known, Wake, LoadOf;
      slot, e := -1, Entry(w, 0);
      if wkePid !in deps {
        CountFirst(wkePid, w);
      } else {
        slot, e := CountAgain(wkePid, w);
      }
    }

    method TpSchedWaking(wkePid: int, kthread: bool, w: Task)
      requires Valid()
      modifies this, deps.Values, set p | p in deps :: deps[p].arr
      ensures Valid() && Value() == OnWaking(old(Value()), wkePid, kthread, w)
    {
      hide Separate, Lists, Announce, CountWake, Known, Wake, IsBlack, LoadOf;
      if !enabled || kthread || wkePid !in keyTasks || w.tgid != keyTasks[wkePid].tgid || IsBlack(w.comm) {
        return;
      }
      ReportUnchanged(Value(), wkePid, w);
      var slot, e := CountWakeUp(wkePid, w);
      if slot != -1 {
        ReportBusy(e);
      }
    }

    method TpSchedProcessFree(pid: int)
      requires Valid()
      modifies this
      ensures Valid() && Value() == OnFree(old(Value()), pid)
    {
      hide Separate, Lists;
      ForgetTask(pid);
      if pid in report {
        log := log + [Msg(KeyDel, pid, report[pid])];
        report := report - {pid};
      }
    }

    method ReportBusy(e: Entry)
      requires Valid()
      modifies this
      ensures Valid()
      ensures Value() ==
                if e.load >= LOAD_THRESHOLD && e.task.pid !in old(report)
                then Announce(old(Value()), OverThreshold, e.task.pid, e.task.tgid) else old(Value())
    {
      hide Separate, Lists, Put;
      if e.load >= LOAD_THRESHOLD && e.task.pid !in report {
        log := log + [Msg(OverThreshold, e.task.pid, e.task.tgid)];
        report := Put(report, e.task.pid, e.task.tgid, MAX_REPORTS);
      }
    }
  }

  /** `update_dep` without a record: a new one holding just this waker, if the map has room. */
  method NewRecord(deps: map<int, DepArr>, pid: int, w: Task) returns (r: map<int, DepArr>)
    requires Separate(deps) && pid !in deps
    ensures Separate(r) && Lists(r) == PutNew(Lists(deps), pid, Wake([], w), MAX_DEP_LISTS)
  {
    hide Separate, Lists, DepArr.Valid, DepArr.Fifo;
    var d := new DepArr();
    d.InsertTask(w);
    r := PutNew(deps, pid, d, MAX_DEP_LISTS);
    SameSize(Lists(deps), deps);
    ListsWith(deps, pid, d);
  }

  lemma ListsWith(deps: map<int, DepArr>, pid: int, d: DepArr)
    requires Separate(deps) && pid !in deps && d.Valid()
    requires forall p :: p in deps ==> deps[p] != d && deps[p].arr != d.arr
    ensures Separate(deps[pid := d]) && Lists(deps[pid := d]) == Lists(deps)[pid := d.Fifo()]
  {
  }

  lemma SameSize<A, B>(a: map<int, A>, b: map<int, B>)
    requires a.Keys == b.Keys
    ensures |a| == |b|
  {
  }

  /** `update_dep` with a record: count the wake-up in place. */
  method CountIn(deps: map<int, DepArr>, pid: int, w: Task) returns (slot: int, e: Entry)
    requires Separate(deps) && pid in deps
    modifies deps[pid], deps[pid].arr
    ensures Separate(deps)
    ensures Lists(deps) == old(Lists(deps))[pid := Wake(old(Lists(deps)[pid]), w)]
    ensures slot != -1 <==> Known(old(Lists(deps)[pid]), w)
    ensures slot != -1 ==> Same(e.task, w) && e.load == LoadOf(Lists(deps)[pid], w)
  {
    hide Known, Wake, DistinctKeys;
    var d := deps[pid];
    slot := d.UpdateDep(w);
    forall p | p in deps && p != pid
      ensures deps[p].Valid() && deps[p].Fifo() == old(deps[p].Fifo())
    {
      assert old(deps[p].Valid());
    }
    e := d.arr[if slot == -1 then 0 else slot];
    if slot != -1 {
      d.FifoDistinct();
      LoadOfUnique(d.Fifo(), e, w);
    }
  }
}
