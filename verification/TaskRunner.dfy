/**
  The subprocess task runner (hub/v2_server/task_runner.py). Handler threads, one capture thread
  a task and crashes of the whole server interleave; each `with self._lock` block is one step.
  The capture thread persists outside the lock, so that is two steps: reading the record, and
  the write landing later.
*/
module TaskRuns {
  import opened Wrappers

  type TaskId = string

  datatype Status =
    AwaitingApproval | Queued | Running | Paused | Succeeded | Failed | Cancelled | Interrupted

  const TERMINAL_STATES: set<Status> := {Succeeded, Failed, Cancelled, Interrupted}

  // How far along a status is.
  function Rank(s: Status): nat {
    match s
    case AwaitingApproval => 0
    case Queued => 1
    case Running | Paused => 2
    case Succeeded | Failed | Cancelled | Interrupted => 3
  }

  datatype Record = Record(
    status: Status,
    pid: Option<nat>,
    exitCode: Option<int>,
    started: bool,
    ended: bool,
    summary: Option<string>,
    tail: seq<string>)

  const TAIL_LINES: nat := 100
  const PERSIST_EVERY: nat := 20

  // What the capture thread is about to do: read on, persist, or let a write it prepared land.
  datatype Capture =
    | NoThread
    | Reading(tail: seq<string>)
    | DueToPersist(tail: seq<string>)
    | Landing(tail: seq<string>, late: Record)
    | Finalised

  // A task: its record in memory and in state.json, whether the runner holds its process, its
  // capture thread, the handler threads about to call _start for it, and the processes started.
  datatype Task = Task(rec: Record, disk: Record, proc: bool, capture: Capture, starters: nat, starts: nat)

  datatype Spawn = Spawned(pid: nat) | NotFound | SpawnError

  datatype Act =
    | Start(spawn: Spawn)
    | Pause
    | Resume(spawn: Spawn)
    | Cancel
    | Approve
    | Reject(reason: string)
    | ReadLine(line: string)
    | ReadRecord
    | Land
    | Exit(rc: int)

  datatype Step =
    | Enqueue(id: TaskId, requiresApproval: bool, startNow: bool)
    | At(id: TaskId, act: Act)
    | Crash(alive: nat -> bool, midStart: Option<TaskId>)

  // ---------------------------------------------------------------------------
  // The atomic blocks, for one task.
  // ---------------------------------------------------------------------------

  predicate HasThread(t: Task) {
    t.capture.Reading? || t.capture.DueToPersist? || t.capture.Landing?
  }

  function Persisted(t: Task): Task {
    t.(disk := t.rec)
  }

  function NewTask(requiresApproval: bool, startNow: bool): Task {
    var rec := Record(if requiresApproval then AwaitingApproval else Queued, None, None, false, false, None, []);
    Task(rec, rec, false, NoThread, if !requiresApproval && startNow then 1 else 0, 0)
  }

  // The locked block of _start, on a queued task. Only a missing executable is caught.
  function Launched(t: Task, spawn: Spawn): Task {
    match spawn
    case SpawnError => t
    case NotFound =>
      Persisted(t.(rec := t.rec.(status := Failed, started := true, ended := true, exitCode := Some(-1),
                                 summary := Some("Failed to start"))))
    case Spawned(pid) =>
      Persisted(t.(rec := t.rec.(status := Running, started := true, pid := Some(pid)),
                   proc := true, starts := t.starts + 1)).(capture := Reading([]))
  }

  // _start, called by a thread that owes the call. It raises unless the task is queued.
  function StartBlock(t: Task, spawn: Spawn): Task {
    if t.starters == 0 then t
    else
      var u := t.(starters := t.starters - 1);
      if t.rec.status == Queued then Launched(u, spawn) else u
  }

  function PauseBlock(t: Task): Task {
    if t.rec.status == Running && t.rec.pid.Some? then Persisted(t.(rec := t.rec.(status := Paused))) else t
  }

  // resume() also promotes a task that awaits approval, and starts it in the same block.
  function ResumeBlock(t: Task, spawn: Spawn): Task {
    if t.rec.status == AwaitingApproval then Launched(Persisted(t.(rec := t.rec.(status := Queued))), spawn)
    else if t.rec.status == Paused && t.rec.pid.Some? then Persisted(t.(rec := t.rec.(status := Running)))
    else t
  }

  function CancelBlock(t: Task): Task {
    if t.rec.status in TERMINAL_STATES then t
    else if t.rec.status == AwaitingApproval then
      Persisted(t.(rec := t.rec.(status := Cancelled, ended := true, summary := Some("Cancelled before approval."))))
    else
      Persisted(t.(rec := t.rec.(status := Cancelled, summary := Some("Cancelled by operator."))))
  }

  // The first block of approve(); the thread then owes a call of _start.
  function ApproveBlock(t: Task): Task {
    if t.rec.status != AwaitingApproval then t
    else Persisted(t.(rec := t.rec.(status := Queued), starters := t.starters + 1))
  }

  function RejectBlock(t: Task, reason: string): Task {
    if t.rec.status != AwaitingApproval then t
    else Persisted(t.(rec := t.rec.(status := Cancelled, ended := true,
                                    summary := Some(if reason == "" then "Rejected by approver." else reason))))
  }

  // The deque of the last lines.
  function Extended(tail: seq<string>, line: string): seq<string> {
    if |tail| < TAIL_LINES then tail + [line] else (tail + [line])[1..]
  }

  function ReadLineBlock(t: Task, line: string): Task {
    if !t.capture.Reading? then t
    else
      var tail := Extended(t.capture.tail, line);
      t.(rec := t.rec.(tail := tail),
         capture := if |tail| % PERSIST_EVERY == 0 then DueToPersist(tail) else Reading(tail))
  }

  // The capture thread's own persist, outside the lock: the record is read ...
  function ReadRecordBlock(t: Task): Task {
    if !t.capture.DueToPersist? then t else t.(capture := Landing(t.capture.tail, t.rec))
  }

  // ... and the write lands later.
  function LandBlock(t: Task): Task {
    if !t.capture.Landing? then t else t.(disk := t.capture.late, capture := Reading(t.capture.tail))
  }

  function FinalRecord(rec: Record, tail: seq<string>, rc: int): Record {
    rec.(status := if rec.status == Cancelled then Cancelled else if rc == 0 then Succeeded else Failed,
         exitCode := Some(rc), ended := true, tail := tail,
         summary := if rec.summary.Some? then rec.summary else Some(if tail != [] then tail[|tail| - 1] else "exit"))
  }

  // The process has exited and its output is read.
  function ExitBlock(t: Task, rc: int): Task {
    if !t.capture.Reading? then t
    else
      Persisted(t.(rec := FinalRecord(t.rec, t.capture.tail, rc), proc := false, capture := Finalised))
  }

  function Acted(t: Task, act: Act): Task {
    match act
    case Start(spawn) => StartBlock(t, spawn)
    case Pause => PauseBlock(t)
    case Resume(spawn) => ResumeBlock(t, spawn)
    case Cancel => CancelBlock(t)
    case Approve => ApproveBlock(t)
    case Reject(reason) => RejectBlock(t, reason)
    case ReadLine(line) => ReadLineBlock(t, line)
    case ReadRecord => ReadRecordBlock(t)
    case Land => LandBlock(t)
    case Exit(rc) => ExitBlock(t, rc)
  }

  // A crash inside the block of _start, after the process was created and before anything was
  // written about it. Only a thread that was to call _start, or resume(), can be there.
  function CrashedMidStart(t: Task): Task {
    if t.rec.status == Queued && t.starters > 0 then t.(starts := t.starts + 1)
    else if t.rec.status == AwaitingApproval then
      Persisted(t.(rec := t.rec.(status := Queued))).(starts := t.starts + 1)
    else t
  }

  function MaybeMidStart(t: Task, midStart: bool): Task {
    if midStart then CrashedMidStart(t) else t
  }

  // A running task whose process is gone has been interrupted.
  function Reaped(rec: Record, alive: nat -> bool): Record {
    if rec.status in {Running, Paused} && rec.pid.Some? && rec.pid.value > 0 && !alive(rec.pid.value) then
      rec.(status := Interrupted, ended := true,
           summary := if rec.summary.Some? && rec.summary.value != "" then rec.summary
                      else Some("Interrupted by server restart."))
    else rec
  }

  // Startup: the threads and the memory are gone, and the record is read from disk.
  function Restarted(t: Task, alive: nat -> bool): Task {
    var rec := Reaped(t.disk, alive);
    Task(rec, rec, false, NoThread, 0, t.starts)
  }

  type Runner = map<TaskId, Task>

  function Next(r: Runner, step: Step): Runner {
    match step
    case Enqueue(id, requiresApproval, startNow) =>
      if id in r then r else r[id := NewTask(requiresApproval, startNow)]
    case At(id, act) =>
      if id in r then r[id := Acted(r[id], act)] else r
    case Crash(alive, midStart) =>
      map id | id in r :: Restarted(MaybeMidStart(r[id], midStart == Some(id)), alive)
  }

  function RunOf(r: Runner, steps: seq<Step>): Runner
    decreases |steps|
  {
    if steps == [] then r else RunOf(Next(r, steps[0]), steps[1..])
  }

  // ---------------------------------------------------------------------------
  // What every step keeps.
  // ---------------------------------------------------------------------------

  predicate Inv(t: Task) {
    // At most one process is started, and none before approval.
    && t.starts + t.starters <= 1
    && (t.rec.status == AwaitingApproval ==> t.starts + t.starters == 0)
    // The file lags behind memory, if at all. It agrees with memory unless a capture thread runs.
    && Rank(t.disk.status) <= Rank(t.rec.status)
    && (t.disk.status == AwaitingApproval ==> t.rec.status == AwaitingApproval)
    && (!HasThread(t) ==> t.disk == t.rec)
    // A capture thread belongs to a started task that nobody but a canceller has ended.
    && (HasThread(t) <==> t.proc)
    && (HasThread(t) ==>
          && t.starts == 1
          && t.rec.status in {Running, Paused, Cancelled} && t.disk.status in {Running, Paused, Cancelled})
    && (t.capture.Landing? ==>
          t.capture.late.status in {Running, Paused, Cancelled} && Rank(t.capture.late.status) <= Rank(t.rec.status))
    && (t.capture.Finalised? ==> t.rec.status in TERMINAL_STATES)
  }

  lemma ActKeepsInv(t: Task, act: Act)
    requires Inv(t)
    ensures Inv(Acted(t, act))
  {
  }

  lemma RestartKeepsInv(t: Task, alive: nat -> bool, midStart: bool)
    requires Inv(t)
    ensures Inv(Restarted(MaybeMidStart(t, midStart), alive))
  {
  }

  ghost predicate AllInv(r: Runner) {
    forall id :: id in r ==> Inv(r[id])
  }

  lemma StepKeepsInv(r: Runner, step: Step)
    requires AllInv(r)
    ensures AllInv(Next(r, step))
  {
    match step
    case Enqueue(_, _, _) =>
    case At(id, act) =>
      if id in r {
        ActKeepsInv(r[id], act);
      }
    case Crash(alive, midStart) =>
      forall id | id in r
        ensures Inv(Next(r, step)[id])
      {
        RestartKeepsInv(r[id], alive, midStart == Some(id));
      }
  }

  lemma {:induction false} RunKeepsInv(r: Runner, steps: seq<Step>)
    requires AllInv(r)
    ensures AllInv(RunOf(r, steps))
    ensures r.Keys <= RunOf(r, steps).Keys
    decreases |steps|
  {
    if steps == [] {
    } else {
      StepKeepsInv(r, steps[0]);
      RunKeepsInv(Next(r, steps[0]), steps[1..]);
    }
  }

  /**
    In every interleaving, crashes and restarts included, a task's process is started at most
    once, its state file never ranks ahead of memory, and the two are equal whenever no capture
    thread runs, so from the moment that one has finalised the task.
  */
  lemma EveryInterleaving(steps: seq<Step>, id: TaskId)
    requires id in RunOf(map[], steps)
    ensures var t := RunOf(map[], steps)[id];
            && t.starts <= 1
            && Rank(t.disk.status) <= Rank(t.rec.status)
            && (!HasThread(t) ==> t.disk == t.rec)
  {
    RunKeepsInv(map[], steps);
  }

  // ---------------------------------------------------------------------------
  // Status only moves forward.
  // ---------------------------------------------------------------------------

  // A later state of a task: no status lost, no terminal status left.
  predicate Forward(t: Task, u: Task) {
    && Rank(t.rec.status) <= Rank(u.rec.status)
    && (t.rec.status in TERMINAL_STATES ==> u.rec.status == t.rec.status)
    && (t.rec.ended ==> u.rec.ended)
    && (t.capture.Finalised? ==> u.capture == t.capture && u.rec == t.rec && u.disk == t.disk)
    && t.starts <= u.starts
  }

  lemma ActMovesForward(t: Task, act: Act)
    requires Inv(t)
    ensures Forward(t, Acted(t, act))
  {
  }

  /**
    From any reachable state on and as long as the server does not crash, a task's status only
    moves forward, and a terminal one, so in particular a cancelled one, is never left, whatever
    the process's exit code. A finalised task does not change at all, in memory or on disk.
  */
  lemma {:induction false} StatusMovesForward(r: Runner, steps: seq<Step>, id: TaskId)
    requires AllInv(r) && id in r
    requires forall k :: 0 <= k < |steps| ==> !steps[k].Crash?
    ensures id in RunOf(r, steps) && Forward(r[id], RunOf(r, steps)[id])
    decreases |steps|
  {
    if steps == [] {
    } else {
      var s := Next(r, steps[0]);
      assert !steps[0].Crash?;
      StepKeepsInv(r, steps[0]);
      if steps[0].At? && steps[0].id == id {
        ActMovesForward(r[id], steps[0].act);
      }
      StatusMovesForward(s, steps[1..], id);
    }
  }

  // ---------------------------------------------------------------------------
  // Crashes.
  // ---------------------------------------------------------------------------

  /**
    What a crash does to a task. Without a capture thread it comes back as it was, unless it ran
    and its process is gone, or was on its way from approval to its start. With one, it can fall
    back only when it was cancelled and a late write had put an older status over that.
  */
  lemma CrashEffect(t: Task, alive: nat -> bool, midStart: bool)
    requires Inv(t)
    ensures var u := Restarted(MaybeMidStart(t, midStart), alive);
            && (!HasThread(t) ==>
                  u.rec == if midStart && t.rec.status == AwaitingApproval then t.rec.(status := Queued)
                           else Reaped(t.rec, alive))
            && (Rank(u.rec.status) < Rank(t.rec.status) ==>
                  HasThread(t) && t.rec.status == Cancelled && t.disk.status in {Running, Paused})
  {
  }

  // ---------------------------------------------------------------------------
  // When a crash undoes a terminal status, told by the run that led there.
  // ---------------------------------------------------------------------------

  // A write that would put an older status over a cancellation: under way before the task is
  // cancelled, under way since, and landed.
  predicate OldWriteUnderWay(t: Task) {
    t.capture.Landing? && t.capture.late.status != Cancelled
  }

  predicate CrossingWrite(t: Task) {
    OldWriteUnderWay(t) && t.rec.status == Cancelled
  }

  predicate CancelHidden(t: Task) {
    t.rec.status == Cancelled && t.disk.status != Cancelled
  }

  // The acts that matter, where they have an effect.
  predicate Reads(t: Task, act: Act) {
    act.ReadRecord? && t.capture.DueToPersist?
  }

  predicate Cancels(t: Task, act: Act) {
    act.Cancel? && t.rec.status in {Running, Paused}
  }

  predicate Lands(t: Task, act: Act) {
    act.Land? && t.capture.Landing?
  }

  predicate Exits(t: Task, act: Act) {
    act.Exit? && t.capture.Reading?
  }

  lemma ActOnWrites(t: Task, act: Act)
    requires Inv(t)
    ensures var u := Acted(t, act);
            && (OldWriteUnderWay(u) <==>
                  if Reads(t, act) then t.rec.status != Cancelled
                  else !Lands(t, act) && !Exits(t, act) && OldWriteUnderWay(t))
            && (CrossingWrite(u) <==>
                  && !Reads(t, act) && !Lands(t, act) && !Exits(t, act)
                  && (CrossingWrite(t) || (Cancels(t, act) && OldWriteUnderWay(t))))
            && (CancelHidden(u) <==> if Lands(t, act) then CrossingWrite(t) else !Exits(t, act) && CancelHidden(t))
  {
  }

  // The same for a task of the runner, and for a step.
  predicate HasTask(r: Runner, id: TaskId, p: Task -> bool) {
    id in r && p(r[id])
  }

  predicate ReadsOld(r: Runner, step: Step, id: TaskId) {
    step.At? && step.id == id && id in r && Reads(r[id], step.act) && r[id].rec.status != Cancelled
  }

  predicate CancelsNow(r: Runner, step: Step, id: TaskId) {
    step.At? && step.id == id && id in r && Cancels(r[id], step.act)
  }

  predicate LandsNow(r: Runner, step: Step, id: TaskId) {
    step.At? && step.id == id && id in r && Lands(r[id], step.act)
  }

  // What ends a write under way, or overwrites what it left: it lands, another lands, the task is
  // finalised, or the server restarts.
  predicate Settles(r: Runner, step: Step, id: TaskId) {
    step.Crash? || (step.At? && step.id == id && id in r && (Lands(r[id], step.act) || Exits(r[id], step.act)))
  }

  lemma StepOnWrites(r: Runner, step: Step, id: TaskId)
    requires AllInv(r)
    ensures var u := Next(r, step);
            && (HasTask(u, id, OldWriteUnderWay) <==>
                  ReadsOld(r, step, id) || (!Settles(r, step, id) && HasTask(r, id, OldWriteUnderWay)))
            && (HasTask(u, id, CrossingWrite) <==>
                  && !Settles(r, step, id)
                  && (HasTask(r, id, CrossingWrite) || (CancelsNow(r, step, id) && HasTask(r, id, OldWriteUnderWay))))
            && (HasTask(u, id, CancelHidden) <==>
                  || (LandsNow(r, step, id) && HasTask(r, id, CrossingWrite))
                  || (!Settles(r, step, id) && HasTask(r, id, CancelHidden)))
  {
    if step.At? && step.id == id && id in r {
      ActOnWrites(r[id], step.act);
    }
  }

  function Before(steps: seq<Step>, m: nat): Runner
    requires m < |steps|
  {
    RunOf(map[], steps[..m])
  }

  ghost predicate Quiet(steps: seq<Step>, from: nat, except: nat, id: TaskId) {
    forall m: nat :: from < m < |steps| && m != except ==> !Settles(Before(steps, m), steps[m], id)
  }

  // Step i reads a record that is not cancelled, and nothing has settled it since.
  ghost predicate ReadAt(steps: seq<Step>, i: nat, id: TaskId) {
    i < |steps| && ReadsOld(Before(steps, i), steps[i], id) && Quiet(steps, i, i, id)
  }

  // ... and at step j the task is cancelled.
  ghost predicate CrossedAt(steps: seq<Step>, i: nat, j: nat, id: TaskId) {
    && i < j < |steps|
    && ReadsOld(Before(steps, i), steps[i], id) && CancelsNow(Before(steps, j), steps[j], id)
    && Quiet(steps, i, i, id)
  }

  // A late write: the record read at step i, the task cancelled at step j, the write of that record
  // landed at step k, and nothing landed or was finalised since, nor the server restarted.
  ghost predicate LateAt(steps: seq<Step>, i: nat, j: nat, k: nat, id: TaskId) {
    && i < j < k < |steps|
    && ReadsOld(Before(steps, i), steps[i], id) && CancelsNow(Before(steps, j), steps[j], id)
    && LandsNow(Before(steps, k), steps[k], id)
    && Quiet(steps, i, k, id)
  }

  ghost predicate WasRead(steps: seq<Step>, id: TaskId) {
    exists i: nat :: ReadAt(steps, i, id)
  }

  ghost predicate WasCrossed(steps: seq<Step>, id: TaskId) {
    exists i: nat, j: nat :: CrossedAt(steps, i, j, id)
  }

  ghost predicate LateWriteLanded(steps: seq<Step>, id: TaskId) {
    exists i: nat, j: nat, k: nat :: LateAt(steps, i, j, k, id)
  }

  lemma BeforeLast(steps: seq<Step>, last: Step, m: nat)
    requires m <= |steps|
    ensures Before(steps + [last], m) == if m < |steps| then Before(steps, m) else RunOf(map[], steps)
  {
    assert (steps + [last])[..m] == steps[..m];
    if m == |steps| {
      assert steps[..m] == steps;
    }
  }

  lemma QuietLast(steps: seq<Step>, last: Step, from: nat, except: nat, id: TaskId)
    requires from < |steps| && except < |steps|
    ensures Quiet(steps + [last], from, except, id) <==>
            Quiet(steps, from, except, id) && !Settles(RunOf(map[], steps), last, id)
  {
    var all := steps + [last];
    BeforeLast(steps, last, |steps|);
    assert all[|steps|] == last;
    forall m: nat | m < |steps| ensures Before(all, m) == Before(steps, m) && all[m] == steps[m] {
      BeforeLast(steps, last, m);
    }
    if Quiet(all, from, except, id) {
      assert !Settles(Before(all, |steps|), all[|steps|], id);
      forall m: nat | from < m < |steps| && m != except ensures !Settles(Before(steps, m), steps[m], id) {
        assert !Settles(Before(all, m), all[m], id);
      }
    }
    if Quiet(steps, from, except, id) && !Settles(RunOf(map[], steps), last, id) {
      forall m: nat | from < m < |all| && m != except ensures !Settles(Before(all, m), all[m], id) {
        if m < |steps| {
          assert !Settles(Before(steps, m), steps[m], id);
        }
      }
    }
  }

  // Leaving out a step at the very end.
  lemma QuietButLast(steps: seq<Step>, last: Step, from: nat, id: TaskId)
    requires from < |steps|
    ensures Quiet(steps + [last], from, |steps|, id) <==> Quiet(steps, from, from, id)
  {
    var all := steps + [last];
    forall m: nat | m < |steps| ensures Before(all, m) == Before(steps, m) && all[m] == steps[m] {
      BeforeLast(steps, last, m);
    }
    if Quiet(all, from, |steps|, id) {
      forall m: nat | from < m < |steps| && m != from ensures !Settles(Before(steps, m), steps[m], id) {
        assert !Settles(Before(all, m), all[m], id);
      }
    }
    if Quiet(steps, from, from, id) {
      forall m: nat | from < m < |all| && m != |steps| ensures !Settles(Before(all, m), all[m], id) {
        assert !Settles(Before(steps, m), steps[m], id);
      }
    }
  }

  lemma ReadLast(steps: seq<Step>, last: Step, id: TaskId)
    ensures WasRead(steps + [last], id) <==>
            ReadsOld(RunOf(map[], steps), last, id) || (!Settles(RunOf(map[], steps), last, id) && WasRead(steps, id))
  {
    var all, n := steps + [last], |steps|;
    BeforeLast(steps, last, n);
    if WasRead(all, id) {
      var i: nat :| ReadAt(all, i, id);
      if i < n {
        BeforeLast(steps, last, i);
        QuietLast(steps, last, i, i, id);
        assert ReadAt(steps, i, id);
      }
    }
    if ReadsOld(RunOf(map[], steps), last, id) {
      assert ReadAt(all, n, id);
    }
    if !Settles(RunOf(map[], steps), last, id) && WasRead(steps, id) {
      var i: nat :| ReadAt(steps, i, id);
      BeforeLast(steps, last, i);
      QuietLast(steps, last, i, i, id);
      assert ReadAt(all, i, id);
    }
  }

  lemma CrossedLast(steps: seq<Step>, last: Step, id: TaskId)
    ensures WasCrossed(steps + [last], id) <==>
            && !Settles(RunOf(map[], steps), last, id)
            && (WasCrossed(steps, id) || (CancelsNow(RunOf(map[], steps), last, id) && WasRead(steps, id)))
  {
    var all, n := steps + [last], |steps|;
    BeforeLast(steps, last, n);
    if WasCrossed(all, id) {
      var i: nat, j: nat :| CrossedAt(all, i, j, id);
      BeforeLast(steps, last, i);
      BeforeLast(steps, last, j);
      QuietLast(steps, last, i, i, id);
      if j < n {
        assert CrossedAt(steps, i, j, id);
      } else {
        assert ReadAt(steps, i, id);
      }
    }
    if !Settles(RunOf(map[], steps), last, id) && WasCrossed(steps, id) {
      var i: nat, j: nat :| CrossedAt(steps, i, j, id);
      BeforeLast(steps, last, i);
      BeforeLast(steps, last, j);
      QuietLast(steps, last, i, i, id);
      assert CrossedAt(all, i, j, id);
    }
    if !Settles(RunOf(map[], steps), last, id) && CancelsNow(RunOf(map[], steps), last, id) && WasRead(steps, id) {
      var i: nat :| ReadAt(steps, i, id);
      BeforeLast(steps, last, i);
      QuietLast(steps, last, i, i, id);
      assert CrossedAt(all, i, n, id);
    }
  }

  lemma LateLast(steps: seq<Step>, last: Step, id: TaskId)
    ensures LateWriteLanded(steps + [last], id) <==>
            || (LandsNow(RunOf(map[], steps), last, id) && WasCrossed(steps, id))
            || (!Settles(RunOf(map[], steps), last, id) && LateWriteLanded(steps, id))
  {
    var all, n := steps + [last], |steps|;
    BeforeLast(steps, last, n);
    if LateWriteLanded(all, id) {
      var i: nat, j: nat, k: nat :| LateAt(all, i, j, k, id);
      BeforeLast(steps, last, i);
      BeforeLast(steps, last, j);
      BeforeLast(steps, last, k);
      if k < n {
        QuietLast(steps, last, i, k, id);
        assert LateAt(steps, i, j, k, id);
      } else {
        QuietButLast(steps, last, i, id);
        assert CrossedAt(steps, i, j, id);
      }
    }
    if LandsNow(RunOf(map[], steps), last, id) && WasCrossed(steps, id) {
      var i: nat, j: nat :| CrossedAt(steps, i, j, id);
      BeforeLast(steps, last, i);
      BeforeLast(steps, last, j);
      QuietButLast(steps, last, i, id);
      assert LateAt(all, i, j, n, id);
    }
    if !Settles(RunOf(map[], steps), last, id) && LateWriteLanded(steps, id) {
      var i: nat, j: nat, k: nat :| LateAt(steps, i, j, k, id);
      BeforeLast(steps, last, i);
      BeforeLast(steps, last, j);
      BeforeLast(steps, last, k);
      QuietLast(steps, last, i, k, id);
      assert LateAt(all, i, j, k, id);
    }
  }

  lemma {:induction false} RunOneMore(r: Runner, steps: seq<Step>, last: Step)
    ensures RunOf(r, steps + [last]) == Next(RunOf(r, steps), last)
    decreases |steps|
  {
    if steps == [] {
      assert [last][1..] == [];
      assert RunOf(r, [last]) == RunOf(Next(r, last), []);
    } else {
      assert (steps + [last])[1..] == steps[1..] + [last];
      RunOneMore(Next(r, steps[0]), steps[1..], last);
    }
  }

  // The run tells which writes cross a cancellation.
  lemma {:induction false} RunTellsWrites(steps: seq<Step>, id: TaskId)
    ensures var r := RunOf(map[], steps);
            && (HasTask(r, id, OldWriteUnderWay) <==> WasRead(steps, id))
            && (HasTask(r, id, CrossingWrite) <==> WasCrossed(steps, id))
            && (HasTask(r, id, CancelHidden) <==> LateWriteLanded(steps, id))
    decreases |steps|
  {
    if steps == [] {
    } else {
      var before, last := steps[..|steps| - 1], steps[|steps| - 1];
      assert before + [last] == steps;
      RunTellsWrites(before, id);
      RunKeepsInv(map[], before);
      RunOneMore(map[], before, last);
      StepOnWrites(RunOf(map[], before), last, id);
      ReadLast(before, last, id);
      CrossedLast(before, last, id);
      LateLast(before, last, id);
    }
  }

  lemma TerminalAfterCrash(t: Task, alive: nat -> bool, midStart: bool)
    requires Inv(t) && t.rec.status in TERMINAL_STATES
    ensures Restarted(MaybeMidStart(t, midStart), alive).rec.status != t.rec.status <==> CancelHidden(t)
  {
  }

  lemma {:induction false} RunnerAfterCrash(r: Runner, id: TaskId, alive: nat -> bool, midStart: Option<TaskId>)
    requires AllInv(r) && id in r && r[id].rec.status in TERMINAL_STATES
    ensures var u := Next(r, Crash(alive, midStart));
            id in u && (u[id].rec.status != r[id].rec.status <==> HasTask(r, id, CancelHidden))
  {
    TerminalAfterCrash(r[id], alive, midStart == Some(id));
  }

  /**
    A crash at any point of any run, inside the start block too, undoes a task's terminal status
    if and only if a late write landed: its record was read before the task was cancelled, it
    landed after that, and nothing landed or was finalised since.
  */
  lemma {:induction false} CrashUndoesTerminal(steps: seq<Step>, id: TaskId, alive: nat -> bool,
                                               midStart: Option<TaskId>)
    requires id in RunOf(map[], steps) && RunOf(map[], steps)[id].rec.status in TERMINAL_STATES
    ensures var r := RunOf(map[], steps);
            var u := Next(r, Crash(alive, midStart));
            id in u && (u[id].rec.status != r[id].rec.status <==> LateWriteLanded(steps, id))
  {
    RunKeepsInv(map[], steps);
    RunTellsWrites(steps, id);
    RunnerAfterCrash(RunOf(map[], steps), id, alive, midStart);
  }

  function ActedAll(t: Task, acts: seq<Act>): Task
    decreases |acts|
  {
    if acts == [] then t else ActedAll(Acted(t, acts[0]), acts[1..])
  }

  function Steps(id: TaskId, acts: seq<Act>): seq<Step> {
    seq(|acts|, k requires 0 <= k < |acts| => At(id, acts[k]))
  }

  lemma {:induction false} RunOfSteps(r: Runner, id: TaskId, acts: seq<Act>)
    requires id in r
    ensures id in RunOf(r, Steps(id, acts)) && RunOf(r, Steps(id, acts))[id] == ActedAll(r[id], acts)
    decreases |acts|
  {
    if acts == [] {
    } else {
      assert Steps(id, acts)[1..] == Steps(id, acts[1..]);
      assert Steps(id, acts)[0] == At(id, acts[0]);
      RunOfSteps(Next(r, At(id, acts[0])), id, acts[1..]);
    }
  }

  lemma {:induction false} ActedAllAppend(t: Task, a: seq<Act>, b: seq<Act>)
    ensures ActedAll(t, a + b) == ActedAll(ActedAll(t, a), b)
    decreases |a|
  {
    if a == [] {
      assert a + b == b;
    } else {
      assert (a + b)[1..] == a[1..] + b;
      ActedAllAppend(Acted(t, a[0]), a[1..], b);
    }
  }

  // Reading n lines, of which the twentieth makes the capture thread persist.
  lemma {:induction false} ReadingLines(t: Task, n: nat, line: string)
    requires t.capture == Reading([]) && n <= PERSIST_EVERY
    ensures var u := ActedAll(t, seq(n, _ => ReadLine(line)));
            && u.capture == (if n == PERSIST_EVERY then DueToPersist(seq(n, _ => line)) else Reading(seq(n, _ => line)))
            && u.(rec := t.rec, capture := t.capture) == t
            && u.rec.(tail := t.rec.tail) == t.rec
  {
    if n > 0 {
      var before := seq(n - 1, _ => ReadLine(line));
      ReadingLines(t, n - 1, line);
      assert seq(n, _ => ReadLine(line)) == before + [ReadLine(line)];
      ActedAllAppend(t, before, [ReadLine(line)]);
      assert seq(n, _ => line) == seq(n - 1, _ => line) + [line];
      assert [ReadLine(line)][1..] == [];
    }
  }

  // The acts that leave a cancelled task with a file that says it runs.
  function LateWrite(pid: nat): seq<Act> {
    [Start(Spawned(pid))] + seq(PERSIST_EVERY, _ => ReadLine("")) + [ReadRecord, Cancel, Land]
  }

  lemma ThreeActs(t: Task, a: Act, b: Act, c: Act)
    ensures ActedAll(t, [a, b, c]) == Acted(Acted(Acted(t, a), b), c)
  {
    assert [a, b, c][1..] == [b, c] && [b, c][1..] == [c] && [c][1..] == [];
    assert ActedAll(Acted(t, a), [b, c]) == ActedAll(Acted(Acted(t, a), b), [c]);
    assert ActedAll(Acted(Acted(t, a), b), [c]) == Acted(Acted(Acted(t, a), b), c);
  }

  lemma LateWriteHides(pid: nat)
    ensures var t := ActedAll(NewTask(false, true), LateWrite(pid));
            t.rec.status == Cancelled && t.disk.status == Running && t.disk.pid == Some(pid)
  {
    var t0 := NewTask(false, true);
    var lines := seq(PERSIST_EVERY, _ => ReadLine(""));
    var t1 := Acted(t0, Start(Spawned(pid)));
    assert ActedAll(t0, [Start(Spawned(pid))]) == t1 by {
      assert [Start(Spawned(pid))][1..] == [];
    }
    ActedAllAppend(t0, [Start(Spawned(pid))], lines);
    ActedAllAppend(t0, [Start(Spawned(pid))] + lines, [ReadRecord, Cancel, Land]);
    ReadingLines(t1, PERSIST_EVERY, "");
    var t2 := ActedAll(t1, lines);
    ThreeActs(t2, ReadRecord, Cancel, Land);
  }

  /**
    So across a crash "a cancelled task stays cancelled" fails: here a task is cancelled while
    its capture thread's write is under way, the write lands, the server crashes and, the process
    having survived, the task runs again. CrashUndoesTerminal says this is the only way.
  */
  lemma CancelUndoneByCrash(id: TaskId, pid: nat)
    ensures var before := RunOf(map[], [Enqueue(id, false, true)] + Steps(id, LateWrite(pid)));
            && id in before && before[id].rec.status == Cancelled
            && var after := Next(before, Crash(_ => true, None));
               id in after && after[id].rec.status == Running
  {
    var r := Next(map[], Enqueue(id, false, true));
    var steps := Steps(id, LateWrite(pid));
    assert ([Enqueue(id, false, true)] + steps)[1..] == steps;
    assert RunOf(map[], [Enqueue(id, false, true)] + steps) == RunOf(r, steps);
    RunOfSteps(r, id, LateWrite(pid));
    LateWriteHides(pid);
  }

  // ---------------------------------------------------------------------------
  // What decides how a task ends.
  // ---------------------------------------------------------------------------

  // More that every step keeps, about the records.
  predicate Facts(t: Task) {
    && (t.starts == 0 ==> t.rec.tail == [])
    && (t.rec.status in {AwaitingApproval, Queued} ==> t.rec.summary == None)
    && (t.rec.status in {Running, Paused} ==> t.rec.pid.Some?)
    && (t.disk.status in {Running, Paused} ==> t.disk.pid.Some?)
    && (t.capture.Landing? && t.capture.late.status in {Running, Paused} ==> t.capture.late.pid.Some?)
    && (HasThread(t) ==>
          && t.rec.tail == t.capture.tail
          && t.rec.summary == if t.rec.status == Cancelled then Some("Cancelled by operator.") else None)
  }

  lemma ActKeepsFacts(t: Task, act: Act)
    requires Inv(t) && Facts(t)
    ensures Facts(Acted(t, act))
  {
  }

  lemma RestartKeepsFacts(t: Task, alive: nat -> bool, midStart: bool)
    requires Inv(t) && Facts(t)
    ensures Facts(Restarted(MaybeMidStart(t, midStart), alive))
  {
  }

  lemma StepKeepsFacts(r: Runner, step: Step, id: TaskId)
    requires AllInv(r) && id in Next(r, step) && (id in r ==> Facts(r[id]))
    ensures Facts(Next(r, step)[id])
  {
    match step
    case Enqueue(_, _, _) =>
    case At(other, act) =>
      if other == id && id in r {
        ActKeepsFacts(r[id], act);
      }
    case Crash(alive, midStart) =>
      RestartKeepsFacts(r[id], alive, midStart == Some(id));
  }

  lemma {:induction false} RunKeepsFacts(steps: seq<Step>, id: TaskId)
    requires id in RunOf(map[], steps)
    ensures Inv(RunOf(map[], steps)[id]) && Facts(RunOf(map[], steps)[id])
    decreases |steps|
  {
    RunKeepsInv(map[], steps);
    if steps == [] {
    } else {
      var before, last := steps[..|steps| - 1], steps[|steps| - 1];
      assert before + [last] == steps;
      RunOneMore(map[], before, last);
      RunKeepsInv(map[], before);
      if id in RunOf(map[], before) {
        RunKeepsFacts(before, id);
      }
      StepKeepsFacts(RunOf(map[], before), last, id);
    }
  }

  // An effective call of _start, with a process or with a missing executable.
  predicate Starting(t: Task, act: Act) {
    || (act.Start? && t.rec.status == Queued && t.starters > 0)
    || (act.Resume? && t.rec.status == AwaitingApproval)
  }

  predicate LaunchedBy(t: Task, act: Act) {
    Starting(t, act) && act.spawn.Spawned?
  }

  predicate NotFoundBy(t: Task, act: Act) {
    Starting(t, act) && act.spawn.NotFound?
  }

  // Where each act leads.
  lemma ActResults(t: Task, act: Act)
    requires Inv(t) && Facts(t)
    ensures var (before, after) := (t.rec.status, Acted(t, act).rec.status);
            && (act.Cancel? ==> after == if before in TERMINAL_STATES then before else Cancelled)
            && (act.Reject? ==> after == if before == AwaitingApproval then Cancelled else before)
            && (act.Approve? ==> after == if before == AwaitingApproval then Queued else before)
            && (act.Approve? && before == AwaitingApproval ==> Acted(t, act).starters == 1)
            && ((act.Cancel? || act.Reject?) && before == AwaitingApproval ==>
                  && Acted(t, act).rec.ended
                  && Acted(t, act).rec.summary == Some(if act.Cancel? then "Cancelled before approval."
                                                       else if act.reason == "" then "Rejected by approver."
                                                       else act.reason))
            && (act.Pause? ==> after == if before == Running then Paused else before)
            && (act.Resume? && before == Paused ==> after == Running)
            && (act.Resume? && before !in {Paused, AwaitingApproval} ==> after == before)
            && (act.Resume? && before == AwaitingApproval && act.spawn.SpawnError? ==> after == Queued)
            && (act.Start? && (before != Queued || t.starters == 0 || act.spawn.SpawnError?) ==> after == before)
            && (LaunchedBy(t, act) ==> after == Running && Acted(t, act).rec.pid == Some(act.spawn.pid))
            && (NotFoundBy(t, act) ==> after == Failed && Acted(t, act).rec.exitCode == Some(-1))
            && (act.ReadLine? || act.ReadRecord? || act.Land? ==> after == before)
  {
  }

  predicate ActsBy(r: Runner, step: Step, id: TaskId, p: (Task, Act) -> bool) {
    step.At? && step.id == id && id in r && p(r[id], step.act)
  }

  // The process exits with code rc at step k of a run, and its capture thread finalises the task.
  ghost predicate ExitedAt(steps: seq<Step>, k: nat, id: TaskId, rc: int) {
    k < |steps| && steps[k] == At(id, Exit(rc)) && ActsBy(Before(steps, k), steps[k], id, Exits)
  }

  // A task has been cancelled by an operator while it ran, and the server has not crashed since.
  ghost predicate CancelledAt(steps: seq<Step>, j: nat, id: TaskId) {
    && j < |steps| && CancelsNow(Before(steps, j), steps[j], id)
    && (forall m :: j < m < |steps| ==> !steps[m].Crash?)
  }

  ghost predicate WasCancelled(steps: seq<Step>, id: TaskId) {
    exists j: nat :: CancelledAt(steps, j, id)
  }

  lemma {:induction false} CancelledLast(steps: seq<Step>, last: Step, id: TaskId)
    ensures WasCancelled(steps + [last], id) <==>
            CancelsNow(RunOf(map[], steps), last, id) || (!last.Crash? && WasCancelled(steps, id))
  {
    var all, n := steps + [last], |steps|;
    BeforeLast(steps, last, n);
    if WasCancelled(all, id) {
      var j: nat :| CancelledAt(all, j, id);
      BeforeLast(steps, last, j);
      if j < n {
        assert !all[n].Crash?;
        assert forall m :: j < m < n ==> steps[m] == all[m];
        assert CancelledAt(steps, j, id);
      }
    }
    if CancelsNow(RunOf(map[], steps), last, id) {
      assert CancelledAt(all, n, id);
    }
    if !last.Crash? && WasCancelled(steps, id) {
      var j: nat :| CancelledAt(steps, j, id);
      BeforeLast(steps, last, j);
      assert CancelledAt(all, j, id);
    }
  }

  predicate IsCancelled(t: Task) {
    t.rec.status == Cancelled
  }

  predicate CancelledWithThread(t: Task) {
    HasThread(t) && t.rec.status == Cancelled
  }

  lemma ActOnCancelled(t: Task, act: Act)
    requires Inv(t)
    ensures Cancels(t, act) || IsCancelled(t) ==> IsCancelled(Acted(t, act))
    ensures CancelledWithThread(Acted(t, act)) ==> Cancels(t, act) || CancelledWithThread(t)
  {
    ActMovesForward(t, act);
  }

  lemma StepOnCancelled(r: Runner, step: Step, id: TaskId)
    requires AllInv(r)
    ensures CancelsNow(r, step, id) ==> HasTask(Next(r, step), id, IsCancelled)
    ensures HasTask(r, id, IsCancelled) && !step.Crash? ==> HasTask(Next(r, step), id, IsCancelled)
    ensures HasTask(Next(r, step), id, CancelledWithThread) ==>
              !step.Crash? && (CancelsNow(r, step, id) || HasTask(r, id, CancelledWithThread))
  {
    if step.At? && step.id == id && id in r {
      ActOnCancelled(r[id], step.act);
    }
  }

  // A task with a capture thread is marked cancelled exactly when the run says it was.
  lemma {:induction false} RunTellsCancelled(steps: seq<Step>, id: TaskId)
    ensures var r := RunOf(map[], steps);
            && (WasCancelled(steps, id) ==> HasTask(r, id, IsCancelled))
            && (HasTask(r, id, CancelledWithThread) ==> WasCancelled(steps, id))
    decreases |steps|
  {
    if steps == [] {
    } else {
      var before, last := steps[..|steps| - 1], steps[|steps| - 1];
      assert before + [last] == steps;
      RunTellsCancelled(before, id);
      RunKeepsInv(map[], before);
      RunOneMore(map[], before, last);
      StepOnCancelled(RunOf(map[], before), last, id);
      CancelledLast(before, last, id);
    }
  }

  // The lines the capture thread has read since it was started.
  ghost function LinesRead(steps: seq<Step>, id: TaskId): seq<string>
    decreases |steps|
  {
    if steps == [] then []
    else
      var before, last := steps[..|steps| - 1], steps[|steps| - 1];
      var r := RunOf(map[], before);
      if ActsBy(r, last, id, LaunchedBy) then []
      else if ActsBy(r, last, id, ReadsLine) then LinesRead(before, id) + [last.act.line]
      else LinesRead(before, id)
  }

  predicate ReadsLine(t: Task, act: Act) {
    act.ReadLine? && t.capture.Reading?
  }

  function LastLines(lines: seq<string>): seq<string> {
    if |lines| <= TAIL_LINES then lines else lines[|lines| - TAIL_LINES..]
  }

  lemma ExtendedLast(lines: seq<string>, line: string)
    ensures Extended(LastLines(lines), line) == LastLines(lines + [line])
    ensures |LastLines(lines)| == if |lines| < TAIL_LINES then |lines| else TAIL_LINES
  {
  }

  lemma ActOnTail(t: Task, act: Act)
    requires Inv(t) && HasThread(Acted(t, act))
    ensures var u := Acted(t, act);
            if LaunchedBy(t, act) then u.capture.tail == []
            else
              && HasThread(t)
              && (if ReadsLine(t, act) then
                    && u.capture.tail == Extended(t.capture.tail, act.line)
                    && (u.capture.DueToPersist? <==> |u.capture.tail| % PERSIST_EVERY == 0)
                  else u.capture.tail == t.capture.tail)
  {
  }

  lemma StepOnTail(r: Runner, step: Step, id: TaskId)
    requires AllInv(r) && HasTask(Next(r, step), id, HasThread)
    ensures var t := Next(r, step)[id];
            if ActsBy(r, step, id, LaunchedBy) then t.capture.tail == []
            else
              && id in r && HasThread(r[id])
              && (if ActsBy(r, step, id, ReadsLine) then
                    && t.capture.tail == Extended(r[id].capture.tail, step.act.line)
                    && (t.capture.DueToPersist? <==> |t.capture.tail| % PERSIST_EVERY == 0)
                  else t.capture.tail == r[id].capture.tail)
  {
    if step.At? && step.id == id && id in r {
      ActOnTail(r[id], step.act);
    }
  }

  // The tail a task shows while its process runs is what the thread read last, at most a hundred
  // lines of it.
  lemma {:induction false} TailIsLastLines(steps: seq<Step>, id: TaskId)
    requires HasTask(RunOf(map[], steps), id, HasThread)
    ensures var t := RunOf(map[], steps)[id];
            t.capture.tail == t.rec.tail == LastLines(LinesRead(steps, id))
    decreases |steps|
  {
    RunKeepsFacts(steps, id);
    if steps == [] {
    } else {
      var before, last := steps[..|steps| - 1], steps[|steps| - 1];
      assert before + [last] == steps;
      RunOneMore(map[], before, last);
      RunKeepsInv(map[], before);
      StepOnTail(RunOf(map[], before), last, id);
      if !ActsBy(RunOf(map[], before), last, id, LaunchedBy) {
        TailIsLastLines(before, id);
        if ActsBy(RunOf(map[], before), last, id, ReadsLine) {
          ExtendedLast(LinesRead(before, id), last.act.line);
        }
      }
    }
  }

  lemma {:induction false} ReadOneMore(steps: seq<Step>, id: TaskId, line: string)
    requires ActsBy(RunOf(map[], steps), At(id, ReadLine(line)), id, ReadsLine)
    ensures LinesRead(steps + [At(id, ReadLine(line))], id) == LinesRead(steps, id) + [line]
  {
    assert (steps + [At(id, ReadLine(line))])[..|steps|] == steps;
  }

  lemma LastLinesDue(lines: seq<string>)
    ensures |LastLines(lines)| % PERSIST_EVERY == 0 <==> |lines| % PERSIST_EVERY == 0 || |lines| >= TAIL_LINES
  {
  }

  // A line makes the thread persist if it is the twentieth, fortieth, ... and, the tail being full
  // from then on, if it is the hundredth or any later one.
  lemma {:induction false} PersistDue(steps: seq<Step>, id: TaskId, line: string)
    requires ActsBy(RunOf(map[], steps), At(id, ReadLine(line)), id, ReadsLine)
    ensures var r := RunOf(map[], steps + [At(id, ReadLine(line))]);
            var n := |LinesRead(steps, id)| + 1;
            id in r && (r[id].capture.DueToPersist? <==> n % PERSIST_EVERY == 0 || n >= TAIL_LINES)
  {
    var last := At(id, ReadLine(line));
    RunOneMore(map[], steps, last);
    RunKeepsInv(map[], steps);
    StepOnTail(RunOf(map[], steps), last, id);
    TailIsLastLines(steps, id);
    ExtendedLast(LinesRead(steps, id), line);
    LastLinesDue(LinesRead(steps, id) + [line]);
  }

  // A task that is over: in a terminal state and without a thread.
  predicate Over(t: Task) {
    !HasThread(t) && t.rec.status in TERMINAL_STATES
  }

  lemma StepKeepsOver(r: Runner, step: Step, id: TaskId)
    requires AllInv(r) && id in r && Over(r[id])
    ensures id in Next(r, step) && Over(Next(r, step)[id]) && Next(r, step)[id].rec == r[id].rec
  {
  }

  // Nothing changes its record any more, a crash included.
  lemma {:induction false} OverForGood(r: Runner, steps: seq<Step>, id: TaskId)
    requires AllInv(r) && id in r && Over(r[id])
    ensures id in RunOf(r, steps) && RunOf(r, steps)[id].rec == r[id].rec == RunOf(r, steps)[id].disk
    decreases |steps|
  {
    if steps == [] {
    } else {
      StepKeepsInv(r, steps[0]);
      StepKeepsOver(r, steps[0], id);
      OverForGood(Next(r, steps[0]), steps[1..], id);
    }
  }

  lemma {:induction false} RunInParts(r: Runner, a: seq<Step>, b: seq<Step>)
    ensures RunOf(r, a + b) == RunOf(RunOf(r, a), b)
    decreases |a|
  {
    if a == [] {
      assert a + b == b;
    } else {
      assert (a + b)[1..] == a[1..] + b;
      RunInParts(Next(r, a[0]), a[1..], b);
    }
  }

  lemma {:induction false} RunThrough(steps: seq<Step>, k: nat)
    requires k < |steps|
    ensures RunOf(map[], steps) == RunOf(Next(Before(steps, k), steps[k]), steps[k + 1..])
  {
    var upTo := steps[..k] + [steps[k]];
    assert steps == upTo + steps[k + 1..];
    RunInParts(map[], upTo, steps[k + 1..]);
    RunOneMore(map[], steps[..k], steps[k]);
  }

  // How a task ends whose process exits with rc.
  function Ending(cancelled: bool, rc: int): Status {
    if cancelled then Cancelled else if rc == 0 then Succeeded else Failed
  }

  /**
    The exit of its process decides how a task ends, for good: whatever follows, crashes included,
    memory and state file say that it was cancelled, if it had been, and otherwise whether it
    succeeded or failed, by the exit code; and they hold that code and the last lines of output.
  */
  lemma {:induction false} ExitDecides(steps: seq<Step>, k: nat, id: TaskId, rc: int)
    requires ExitedAt(steps, k, id, rc)
    ensures var lines, cancelled := LinesRead(steps[..k], id), WasCancelled(steps[..k], id);
            && id in RunOf(map[], steps)
            && var t := RunOf(map[], steps)[id];
               && t.rec == t.disk && t.rec.exitCode == Some(rc) && t.rec.ended
               && t.rec.status == Ending(cancelled, rc)
               && t.rec.tail == LastLines(lines)
               && t.rec.summary == Some(if cancelled then "Cancelled by operator."
                                        else if lines != [] then lines[|lines| - 1] else "exit")
  {
    var before := steps[..k];
    RunKeepsInv(map[], before);
    RunKeepsFacts(before, id);
    RunTellsCancelled(before, id);
    TailIsLastLines(before, id);
    RunThrough(steps, k);
    StepKeepsInv(Before(steps, k), steps[k]);
    OverForGood(Next(Before(steps, k), steps[k]), steps[k + 1..], id);
  }

  // The executable was missing when the task was to start at step k.
  ghost predicate NotFoundAt(steps: seq<Step>, k: nat, id: TaskId) {
    k < |steps| && ActsBy(Before(steps, k), steps[k], id, NotFoundBy)
  }

  lemma NotFoundEnds(t: Task, act: Act)
    requires Inv(t) && NotFoundBy(t, act)
    ensures var u := Acted(t, act);
            Over(u) && u.rec.status == Failed && u.rec.exitCode == Some(-1) && u.rec.ended
  {
  }

  lemma {:induction false} NotFoundDecides(steps: seq<Step>, k: nat, id: TaskId)
    requires NotFoundAt(steps, k, id)
    ensures id in RunOf(map[], steps)
    ensures var rec := RunOf(map[], steps)[id].rec; rec.status == Failed && rec.exitCode == Some(-1) && rec.ended
  {
    var r := Before(steps, k);
    RunKeepsInv(map[], steps[..k]);
    NotFoundEnds(r[id], steps[k].act);
    RunThrough(steps, k);
    StepKeepsInv(r, steps[k]);
    assert Next(r, steps[k])[id] == Acted(r[id], steps[k].act);
    OverForGood(Next(r, steps[k]), steps[k + 1..], id);
  }

  // Its process exited, the task not having been cancelled.
  ghost predicate RanOutAt(steps: seq<Step>, k: nat, id: TaskId, rc: int) {
    ExitedAt(steps, k, id, rc) && !WasCancelled(steps[..k], id)
  }

  ghost predicate Ended(steps: seq<Step>, id: TaskId, status: Status) {
    || (exists k: nat, rc: int :: RanOutAt(steps, k, id, rc) && status == Ending(false, rc))
    || (exists k: nat :: NotFoundAt(steps, k, id) && status == Failed)
  }

  lemma {:induction false} EndedBefore(steps: seq<Step>, last: Step, id: TaskId, status: Status)
    requires Ended(steps, id, status)
    ensures Ended(steps + [last], id, status)
  {
    if k: nat, rc: int :| RanOutAt(steps, k, id, rc) && status == Ending(false, rc) {
      BeforeLast(steps, last, k);
      assert (steps + [last])[..k] == steps[..k];
      assert RanOutAt(steps + [last], k, id, rc);
    } else {
      var k: nat :| NotFoundAt(steps, k, id) && status == Failed;
      BeforeLast(steps, last, k);
      assert NotFoundAt(steps + [last], k, id);
    }
  }

  // Only an exit or a missing executable makes a task succeed or fail.
  lemma ActToEnding(t: Task, act: Act)
    requires Inv(t) && Acted(t, act).rec.status in {Succeeded, Failed}
    requires t.rec.status != Acted(t, act).rec.status && !NotFoundBy(t, act)
    ensures Exits(t, act) && HasThread(t) && t.rec.status != Cancelled
    ensures Acted(t, act).rec.status == Ending(false, act.rc)
  {
  }

  lemma RestartToEnding(t: Task, alive: nat -> bool, midStart: bool)
    requires Inv(t) && Restarted(MaybeMidStart(t, midStart), alive).rec.status in {Succeeded, Failed}
    ensures t.rec.status == Restarted(MaybeMidStart(t, midStart), alive).rec.status
  {
  }

  lemma StepToEnding(r: Runner, step: Step, id: TaskId)
    requires AllInv(r) && id in Next(r, step) && Next(r, step)[id].rec.status in {Succeeded, Failed}
    requires id in r ==> r[id].rec.status != Next(r, step)[id].rec.status
    requires !ActsBy(r, step, id, NotFoundBy)
    ensures ActsBy(r, step, id, Exits) && HasThread(r[id]) && r[id].rec.status != Cancelled
    ensures Next(r, step)[id].rec.status == Ending(false, step.act.rc)
  {
    match step
    case Enqueue(_, _, _) =>
    case At(other, act) =>
      if other == id && id in r {
        ActToEnding(r[id], act);
      }
    case Crash(alive, midStart) =>
      RestartToEnding(r[id], alive, midStart == Some(id));
  }

  lemma {:induction false} EndsNow(steps: seq<Step>, last: Step, id: TaskId)
    requires id in Next(RunOf(map[], steps), last)
    requires var status := Next(RunOf(map[], steps), last)[id].rec.status;
             && status in {Succeeded, Failed}
             && (id in RunOf(map[], steps) ==> RunOf(map[], steps)[id].rec.status != status)
    ensures Ended(steps + [last], id, Next(RunOf(map[], steps), last)[id].rec.status)
  {
    var all, n, r := steps + [last], |steps|, RunOf(map[], steps);
    RunKeepsInv(map[], steps);
    BeforeLast(steps, last, n);
    assert all[n] == last && all[..n] == steps;
    if ActsBy(r, last, id, NotFoundBy) {
      NotFoundEnds(r[id], last.act);
      assert NotFoundAt(all, n, id);
    } else {
      StepToEnding(r, last, id);
      RunTellsCancelled(steps, id);
      assert ExitedAt(all, n, id, last.act.rc);
      assert RanOutAt(all, n, id, last.act.rc);
    }
  }

  // A task that succeeded or failed did so in one of these ways.
  lemma {:induction false} EndingsAreEarned(steps: seq<Step>, id: TaskId)
    requires id in RunOf(map[], steps) && RunOf(map[], steps)[id].rec.status in {Succeeded, Failed}
    ensures Ended(steps, id, RunOf(map[], steps)[id].rec.status)
    decreases |steps|
  {
    var status := RunOf(map[], steps)[id].rec.status;
    if steps == [] {
    } else {
      var before, last := steps[..|steps| - 1], steps[|steps| - 1];
      assert before + [last] == steps;
      RunOneMore(map[], before, last);
      if id in RunOf(map[], before) && RunOf(map[], before)[id].rec.status == status {
        EndingsAreEarned(before, id);
        EndedBefore(before, last, id, status);
      } else {
        EndsNow(before, last, id);
      }
    }
  }

  /**
    So over every run a task has succeeded if and only if its process exited with 0 and it had not
    been cancelled, and has failed if and only if the process exited with another code and it had
    not been cancelled, or there was no executable to start.
  */
  lemma {:induction false} SucceededOrFailed(steps: seq<Step>, id: TaskId)
    requires id in RunOf(map[], steps)
    ensures RunOf(map[], steps)[id].rec.status == Succeeded <==> exists k: nat :: RanOutAt(steps, k, id, 0)
    ensures RunOf(map[], steps)[id].rec.status == Failed <==>
            || (exists k: nat, rc: int :: rc != 0 && RanOutAt(steps, k, id, rc))
            || (exists k: nat :: NotFoundAt(steps, k, id))
  {
    if RunOf(map[], steps)[id].rec.status in {Succeeded, Failed} {
      EndingsAreEarned(steps, id);
    }
    forall k: nat, rc: int | RanOutAt(steps, k, id, rc)
      ensures RunOf(map[], steps)[id].rec.status == Ending(false, rc)
    {
      ExitDecides(steps, k, id, rc);
    }
    forall k: nat | NotFoundAt(steps, k, id)
      ensures RunOf(map[], steps)[id].rec.status == Failed
    {
      NotFoundDecides(steps, k, id);
    }
  }

  // A restart interrupts a task exactly when its file says that it runs and its process is gone.
  // So every task that runs afterwards has a process.
  lemma {:induction false} RestartInterrupts(steps: seq<Step>, id: TaskId, alive: nat -> bool,
                                             midStart: Option<TaskId>)
    requires id in RunOf(map[], steps)
    ensures var t, u := RunOf(map[], steps)[id], Next(RunOf(map[], steps), Crash(alive, midStart))[id];
            && (u.rec.status == Interrupted <==>
                  || t.rec.status == Interrupted
                  || (t.disk.status in {Running, Paused} && t.disk.pid.Some? && t.disk.pid.value > 0 &&
                      !alive(t.disk.pid.value)))
            && (u.rec.status in {Running, Paused} ==>
                  t.disk == u.rec && u.rec.pid.Some? && (u.rec.pid.value > 0 ==> alive(u.rec.pid.value)))
            && (u.rec.status == Interrupted && t.rec.status != Interrupted ==> u.rec.ended && u.rec.summary.Some?)
  {
    RunKeepsFacts(steps, id);
  }

  // A whole life: approved if need be, started, its output read, and its process gone.
  function ReadActs(lines: seq<string>): seq<Act>
    decreases |lines|
  {
    if lines == [] then []
    else ReadActs(lines[..|lines| - 1]) + [ReadLine(lines[|lines| - 1]), ReadRecord, Land]
  }

  function Life(requiresApproval: bool, pid: nat, lines: seq<string>, rc: int): seq<Act> {
    (if requiresApproval then [Approve] else []) + [Start(Spawned(pid))] + ReadActs(lines) + [Exit(rc)]
  }

  lemma ReadsOne(t: Task, line: string)
    requires t.capture.Reading?
    ensures var u := Acted(Acted(Acted(t, ReadLine(line)), ReadRecord), Land);
            var tail := Extended(t.capture.tail, line);
            && u.capture == Reading(tail) && u.rec == t.rec.(tail := tail)
            && u.(rec := t.rec, disk := t.disk, capture := t.capture) == t
  {
  }

  lemma {:induction false} ReadsThrough(t: Task, lines: seq<string>)
    requires t.capture == Reading([]) && t.rec.tail == []
    ensures var u := ActedAll(t, ReadActs(lines));
            && u.capture == Reading(LastLines(lines)) && u.rec == t.rec.(tail := LastLines(lines))
            && u.(rec := t.rec, disk := t.disk, capture := t.capture) == t
    decreases |lines|
  {
    if lines == [] {
    } else {
      var before, line := lines[..|lines| - 1], lines[|lines| - 1];
      assert before + [line] == lines;
      ReadsThrough(t, before);
      ExtendedLast(before, line);
      ActedAllAppend(t, ReadActs(before), [ReadLine(line), ReadRecord, Land]);
      var u := ActedAll(t, ReadActs(before));
      ThreeActs(u, ReadLine(line), ReadRecord, Land);
      ReadsOne(u, line);
    }
  }

  lemma {:induction false} OneAct(t: Task, a: Act)
    ensures ActedAll(t, [a]) == Acted(t, a)
  {
    assert [a][1..] == [];
  }

  lemma {:induction false} Approved(requiresApproval: bool)
    ensures ActedAll(NewTask(requiresApproval, true), if requiresApproval then [Approve] else []) ==
            NewTask(false, true)
  {
    if requiresApproval {
      OneAct(NewTask(true, true), Approve);
    }
  }

  /**
    With nothing else going on that takes a task from its request to its end, by the exit code, and
    leaves the last lines of the output, in memory and on disk.
  */
  lemma {:induction false} LifeOfATask(id: TaskId, requiresApproval: bool, pid: nat, lines: seq<string>, rc: int)
    ensures var r := RunOf(map[], [Enqueue(id, requiresApproval, true)] +
                                  Steps(id, Life(requiresApproval, pid, lines, rc)));
            var rec := Record(if rc == 0 then Succeeded else Failed, Some(pid), Some(rc), true, true,
                              Some(if lines != [] then lines[|lines| - 1] else "exit"), LastLines(lines));
            id in r && r[id] == Task(rec, rec, false, Finalised, 0, 1)
  {
    var t0, t1 := NewTask(requiresApproval, true), NewTask(false, true);
    var t2 := Acted(t1, Start(Spawned(pid)));
    var approval: seq<Act> := if requiresApproval then [Approve] else [];
    Approved(requiresApproval);
    ActedAllAppend(t0, approval, [Start(Spawned(pid))]);
    OneAct(t1, Start(Spawned(pid)));
    ActedAllAppend(t0, approval + [Start(Spawned(pid))], ReadActs(lines));
    ReadsThrough(t2, lines);
    ActedAllAppend(t0, approval + [Start(Spawned(pid))] + ReadActs(lines), [Exit(rc)]);
    OneAct(ActedAll(t2, ReadActs(lines)), Exit(rc));
    var r := Next(map[], Enqueue(id, requiresApproval, true));
    var steps := Steps(id, Life(requiresApproval, pid, lines, rc));
    assert ([Enqueue(id, requiresApproval, true)] + steps)[1..] == steps;
    RunOfSteps(r, id, Life(requiresApproval, pid, lines, rc));
  }

  // ---------------------------------------------------------------------------
  // The runner itself: one method a block. A method returns ok == false where the source raises.
  // ---------------------------------------------------------------------------

  // What belongs to a task besides its record and file: its entry in _procs, the local state of
  // its capture thread, the calls of _start that are owed, and, for the proofs, those that
  // started a process.
  datatype Worker = Worker(proc: bool, capture: Capture, starters: nat, starts: nat)

  const IDLE := Worker(false, NoThread, 0, 0)

  lemma UpdateTwice<V>(m: map<TaskId, V>, id: TaskId, v: V, w: V)
    ensures m[id := v][id := w] == m[id := w]
    ensures id in m ==> m[id := m[id]] == m
  {
  }

  // Startup under way: `before` are the state files it found, `unread` those it has still to read.
  ghost predicate PartlyReaped(before: map<TaskId, Record>, files: map<TaskId, Record>, tasks: map<TaskId, Record>,
                               unread: set<TaskId>, alive: nat -> bool) {
    && files.Keys == before.Keys && unread <= before.Keys && tasks.Keys == before.Keys - unread
    && (forall id :: id in unread ==> files[id] == before[id])
    && (forall id :: id in tasks ==> tasks[id] == files[id] == Reaped(before[id], alive))
  }

  lemma ReapNext(before: map<TaskId, Record>, files: map<TaskId, Record>, tasks: map<TaskId, Record>,
                 unread: set<TaskId>, alive: nat -> bool, id: TaskId)
    requires PartlyReaped(before, files, tasks, unread, alive) && id in unread
    ensures files[id] == before[id]
    ensures var rec := Reaped(before[id], alive);
            PartlyReaped(before, files[id := rec], tasks[id := rec], unread - {id}, alive)
  {
  }

  class TaskRunner {
    var tasks: map<TaskId, Record>
    var stateFiles: map<TaskId, Record>
    var workers: map<TaskId, Worker>

    ghost predicate Valid()
      reads this
    {
      stateFiles.Keys == tasks.Keys && workers.Keys == tasks.Keys
    }

    ghost function TaskAt(id: TaskId): Task
      reads this
      requires Valid() && id in tasks
    {
      var w := workers[id];
      Task(tasks[id], stateFiles[id], w.proc, w.capture, w.starters, w.starts)
    }

    ghost function View(): Runner
      reads this
      requires Valid()
    {
      map id | id in tasks :: TaskAt(id)
    }

    // The one task `id` is now `t`, and nothing else changed.
    twostate predicate Became(id: TaskId, t: Task)
      reads this
    {
      && tasks == old(tasks)[id := t.rec]
      && stateFiles == old(stateFiles)[id := t.disk]
      && workers == old(workers)[id := Worker(t.proc, t.capture, t.starters, t.starts)]
    }

    // What an act does to the runner: nothing if the task is unknown.
    twostate predicate DidAct(id: TaskId, act: Act)
      reads this
      requires old(Valid())
    {
      if id in old(tasks) then Became(id, Acted(old(TaskAt(id)), act)) else unchanged(this)
    }

    // So it is a step of the state machine.
    twostate lemma ActIsStep(id: TaskId, act: Act)
      requires old(Valid()) && DidAct(id, act)
      ensures Valid() && View() == Next(old(View()), At(id, act))
    {
      var u := Next(old(View()), At(id, act));
      assert View().Keys == u.Keys;
      forall other | other in u.Keys
        ensures View()[other] == u[other]
      {
      }
    }

    constructor ()
      ensures Valid() && View() == map[]
    {
      tasks, stateFiles, workers := map[], map[], map[];
    }

    // The record is changed, and persisted under the lock.
    method SaveRecord(id: TaskId, rec: Record)
      requires Valid() && id in tasks
      modifies this`tasks, this`stateFiles
      ensures Valid()
      ensures tasks == old(tasks)[id := rec] && stateFiles == old(stateFiles)[id := rec]
    {
      tasks := tasks[id := rec];
      stateFiles := stateFiles[id := tasks[id]];
    }

    method EnqueueTask(id: TaskId, requiresApproval: bool, startNow: bool) returns (ok: bool)
      requires Valid()
      modifies this
      ensures Valid() && ok == (id !in old(tasks))
      ensures if ok then Became(id, NewTask(requiresApproval, startNow)) else unchanged(this)
      ensures ok ==>
                && tasks[id].status == (if requiresApproval then AwaitingApproval else Queued)
                && stateFiles[id] == tasks[id]
                && workers[id].starters == One(startNow && !requiresApproval)
    {
      if id in tasks {
        return false;
      }
      var rec := Record(if requiresApproval then AwaitingApproval else Queued, None, None, false, false, None, []);
      stateFiles := stateFiles[id := rec];
      tasks := tasks[id := rec];
      workers := workers[id := IDLE.(starters := if !requiresApproval && startNow then 1 else 0)];
      return true;
    }

    // The part of _start that both resume() and a thread that owes the call go through.
    method Launch(id: TaskId, spawn: Spawn) returns (ok: bool)
      requires Valid() && id in tasks
      modifies this
      ensures Valid() && Became(id, Launched(old(TaskAt(id)), spawn))
      ensures ok <==> !spawn.SpawnError?
    {
      match spawn {
        case SpawnError =>
          ok := false;
        case NotFound =>
          SaveRecord(id, tasks[id].(status := Failed, started := true, ended := true, exitCode := Some(-1),
                                    summary := Some("Failed to start")));
          ok := true;
        case Spawned(pid) =>
          SaveRecord(id, tasks[id].(status := Running, started := true, pid := Some(pid)));
          workers := workers[id := workers[id].(
            proc := true, starts := workers[id].starts + 1, capture := Reading([]))];
          ok := true;
      }
    }

    method StartTask(id: TaskId, spawn: Spawn) returns (ok: bool)
      requires Valid() && id in tasks && workers[id].starters > 0
      modifies this
      ensures Valid() && DidAct(id, Start(spawn))
      ensures ok <==> old(tasks)[id].status == Queued && !spawn.SpawnError?
    {
      ghost var t := TaskAt(id).(starters := workers[id].starters - 1);
      workers := workers[id := workers[id].(starters := workers[id].starters - 1)];
      assert TaskAt(id) == t;
      if tasks[id].status != Queued {
        UpdateTwice(tasks, id, t.rec, t.rec);
        UpdateTwice(stateFiles, id, t.disk, t.disk);
        return false;
      }
      ghost var u := Launched(t, spawn);
      UpdateTwice(old(workers), id, workers[id], Worker(u.proc, u.capture, u.starters, u.starts));
      ok := Launch(id, spawn);
    }

    method PauseTask(id: TaskId) returns (ok: bool)
      requires Valid()
      modifies this
      ensures Valid() && DidAct(id, Pause)
      ensures ok <==> id in old(tasks)
    {
      if id !in tasks {
        return false;
      }
      if tasks[id].status == Running && tasks[id].pid.Some? {
        SaveRecord(id, tasks[id].(status := Paused));
      }
      return true;
    }

    // The approval branch of resume(): queued, and started in the same block.
    method Promote(id: TaskId, spawn: Spawn) returns (ok: bool)
      requires Valid() && id in tasks
      modifies this
      ensures Valid()
      ensures Became(id, Launched(Persisted(old(TaskAt(id)).(rec := old(tasks)[id].(status := Queued))), spawn))
      ensures ok <==> !spawn.SpawnError?
    {
      ghost var t := Persisted(TaskAt(id).(rec := tasks[id].(status := Queued)));
      SaveRecord(id, tasks[id].(status := Queued));
      assert TaskAt(id) == t;
      ghost var u := Launched(t, spawn);
      UpdateTwice(old(tasks), id, t.rec, u.rec);
      UpdateTwice(old(stateFiles), id, t.disk, u.disk);
      ok := Launch(id, spawn);
    }

    method ResumeTask(id: TaskId, spawn: Spawn) returns (ok: bool)
      requires Valid()
      modifies this
      ensures Valid() && DidAct(id, Resume(spawn))
      ensures ok <==> id in old(tasks) && (old(tasks)[id].status == AwaitingApproval ==> !spawn.SpawnError?)
    {
      if id !in tasks {
        return false;
      }
      if tasks[id].status == AwaitingApproval {
        ok := Promote(id, spawn);
        return;
      }
      if tasks[id].status == Paused && tasks[id].pid.Some? {
        SaveRecord(id, tasks[id].(status := Running));
      }
      return true;
    }

    method CancelTask(id: TaskId) returns (ok: bool)
      requires Valid()
      modifies this
      ensures Valid() && DidAct(id, Cancel)
      ensures ok <==> id in old(tasks)
    {
      if id !in tasks {
        return false;
      }
      if tasks[id].status in TERMINAL_STATES {
        return true;
      }
      if tasks[id].status == AwaitingApproval {
        SaveRecord(id, tasks[id].(status := Cancelled, ended := true, summary := Some("Cancelled before approval.")));
        return true;
      }
      SaveRecord(id, tasks[id].(status := Cancelled, summary := Some("Cancelled by operator.")));
      return true;
    }

    // The first block of approve(); `promoted` tells the thread to call _start next.
    method ApproveTask(id: TaskId) returns (ok: bool, promoted: bool)
      requires Valid()
      modifies this
      ensures Valid() && DidAct(id, Approve)
      ensures ok <==> id in old(tasks)
      ensures promoted <==> id in old(tasks) && old(tasks)[id].status == AwaitingApproval
      ensures promoted ==> id in tasks && workers[id].starters > 0
    {
      if id !in tasks {
        return false, false;
      }
      if tasks[id].status != AwaitingApproval {
        return true, false;
      }
      SaveRecord(id, tasks[id].(status := Queued));
      workers := workers[id := workers[id].(starters := workers[id].starters + 1)];
      return true, true;
    }

    method RejectTask(id: TaskId, reason: string) returns (ok: bool)
      requires Valid()
      modifies this
      ensures Valid() && DidAct(id, Reject(reason))
      ensures ok <==> id in old(tasks)
    {
      if id !in tasks {
        return false;
      }
      if tasks[id].status == AwaitingApproval {
        SaveRecord(id, tasks[id].(status := Cancelled, ended := true,
                                  summary := Some(if reason == "" then "Rejected by approver." else reason)));
      }
      return true;
    }

    // The capture thread: one line of output.
    method CaptureLine(id: TaskId, line: string)
      requires Valid() && id in tasks && workers[id].capture.Reading?
      modifies this
      ensures Valid() && DidAct(id, ReadLine(line))
    {
      var tail := Extended(workers[id].capture.tail, line);
      tasks := tasks[id := tasks[id].(tail := tail)];
      workers := workers[id := workers[id].(
        capture := if |tail| % PERSIST_EVERY == 0 then DueToPersist(tail) else Reading(tail))];
    }

    // The capture thread: its unlocked persist, in two steps.
    method CaptureReadRecord(id: TaskId)
      requires Valid() && id in tasks && workers[id].capture.DueToPersist?
      modifies this`workers
      ensures Valid() && DidAct(id, ReadRecord)
    {
      workers := workers[id := workers[id].(capture := Landing(workers[id].capture.tail, tasks[id]))];
    }

    method CaptureLand(id: TaskId)
      requires Valid() && id in tasks && workers[id].capture.Landing?
      modifies this`workers, this`stateFiles
      ensures Valid() && DidAct(id, Land)
    {
      stateFiles := stateFiles[id := workers[id].capture.late];
      workers := workers[id := workers[id].(capture := Reading(workers[id].capture.tail))];
    }

    // The capture thread: the process has exited.
    method CaptureExit(id: TaskId, rc: int)
      requires Valid() && id in tasks && workers[id].capture.Reading?
      modifies this
      ensures Valid() && DidAct(id, Exit(rc))
    {
      var rec := Finish(tasks[id], workers[id].capture.tail, rc);
      SaveRecord(id, rec);
      workers := workers[id := workers[id].(proc := false, capture := Finalised)];
    }

    // A cancelled task keeps its status; only the exit code is recorded.
    method Finish(rec: Record, tail: seq<string>, rc: int) returns (r: Record)
      ensures r == FinalRecord(rec, tail, rc)
    {
      r := rec.(exitCode := Some(rc));
      if rec.status != Cancelled {
        r := r.(status := if rc == 0 then Succeeded else Failed);
      }
      r := r.(ended := true, tail := tail);
      if rec.summary == None {
        r := r.(summary := Some(if tail != [] then tail[|tail| - 1] else "exit"));
      }
    }

    // One record read back at startup.
    method ReapOne(rec: Record, alive: nat -> bool) returns (reaped: Record)
      ensures reaped == Reaped(rec, alive)
    {
      reaped := rec;
      if rec.status in {Running, Paused} && rec.pid.Some? && rec.pid.value > 0 && !alive(rec.pid.value) {
        reaped := rec.(status := Interrupted, ended := true);
        if rec.summary == None || rec.summary == Some("") {
          reaped := reaped.(summary := Some("Interrupted by server restart."));
        }
      }
    }

    // A restart: every record is read back, and a running task without its process is reaped.
    method ReapOrphansOnStartup(alive: nat -> bool)
      requires Valid()
      modifies this
      ensures Valid() && tasks.Keys == old(tasks).Keys
      ensures forall id :: id in tasks ==> TaskAt(id) == Restarted(old(TaskAt(id)), alive)
    {
      ghost var files := stateFiles;
      workers := map id | id in workers :: IDLE.(starts := workers[id].starts);
      ghost var reset := workers;
      tasks := map[];
      var unread := stateFiles.Keys;
      while unread != {}
        invariant workers == reset && PartlyReaped(files, stateFiles, tasks, unread, alive)
      {
        var id :| id in unread;
        var rec := ReapOne(stateFiles[id], alive);
        ReapNext(files, stateFiles, tasks, unread, alive, id);
        unread := unread - {id};
        tasks := tasks[id := rec];
        stateFiles := stateFiles[id := rec];
      }
    }

    // So a restart is a step of the state machine.
    twostate lemma RestartIsStep(alive: nat -> bool)
      requires old(Valid()) && Valid() && tasks.Keys == old(tasks).Keys
      requires forall id :: id in tasks ==> TaskAt(id) == Restarted(old(TaskAt(id)), alive)
      ensures View() == Next(old(View()), Crash(alive, None))
    {
      var u := Next(old(View()), Crash(alive, None));
      assert View().Keys == u.Keys;
    }
  }
}
