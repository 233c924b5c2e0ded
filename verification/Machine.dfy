/** The orchestrator as an interleaving of lock sections.  Each step below is one critical
    section (or one event of the outside world); the scheduler, every reader thread and every
    command can be interrupted between any two of them. */
module Machine {
  import opened Model

  /** Where the scheduler thread stands inside `tick`. */
  datatype Scheduler =
    | Resting                                         // top of the admission loop, or asleep
    | Admitting                                       // the cap check passed
    | Took(tid: TaskId)                               // after `take_next_task`
    | Chosen(tid: TaskId, sid: SessionId)             // a worker was found or spawned
    | HalfBound(tid: TaskId, sid: SessionId)          // the task names the worker, not yet the reverse
    | Sending(tid: TaskId, sid: SessionId)            // about to look the worker up for its stdin
    | Writing(tid: TaskId, sid: SessionId)            // holds the stdin handle
    | Sent(sid: SessionId)                            // written; about to mark the worker busy
    | Failing(tid: TaskId, err: string)               // about to call `fail_task`

  /** A prompt written to a worker: a user's, or the scheduler's for a task. */
  datatype Turn = ByUser | ForTask(tid: TaskId)

  /** Where a reader thread stands.  `answers` is the prompt the result belongs to, none if nothing was
      asked; `verdict` is the status finalization wrote, if the session was still registered. */
  datatype Reader =
    | Reading
    | Handling
    | SawResult(isError: bool, summary: string, answers: Option<Turn>)
    | Completing(tid: TaskId, isError: bool, summary: string)
    | Left
    | Reaping(requested: bool)
    | Recovering(tid: TaskId)
    | Finished(verdict: Option<SessionStatus>)

  /** A child process with its stop cell and its reader; it outlives the registration.
      The last four fields only record history: the task last started on the worker, the prompts
      written to it whose results have not arrived, whether its reader found the stop flag down for the
      last time while the process lived, and whether a stop was stored while the process lived. */
  datatype Worker = Worker(
    reader: Reader,
    stop: bool,
    alive: bool,
    last: Option<TaskId>,
    turns: seq<Turn>,
    letGo: bool,
    stoppedAlive: bool)

  datatype State = State(
    tasks: map<TaskId, Task>,
    sessions: map<SessionId, Session>,
    workers: map<SessionId, Worker>,
    sched: Scheduler,
    fails: multiset<TaskId>,                          // `fail_task` calls `remove` still owes
    marks: multiset<SessionId>)                       // busy marks `send_message` still owes

  const INIT := State(map[], map[], map[], Resting, multiset{}, multiset{})

  const NEW_WORKER := Worker(Reading, false, true, None, [], false, false)

  predicate BeforeLoad(r: Reader) {
    r.Reading? || r.Handling? || r.SawResult? || r.Completing? || r.Left?
  }

  predicate Finalized(w: Worker) { w.reader.Recovering? || w.reader.Finished? }

  datatype SchedStep =
    | Admit(cap: nat)
    | TakeNone
    | TakeTask(tid: TaskId)
    | FindIdle(sid: SessionId)
    | SpawnFor(sid: SessionId)
    | SpawnFails(reason: string)
    | BindTask(tid: TaskId, sid: SessionId, now: int)
    | BindSession
    | Lookup
    | WriteOk
    | WriteFails(reason: string)
    | MarkSent
    | FailTask(now: int)

  datatype Exit = StopSeen | Eof | ReadError

  datatype ReadStep =
    | NextLine
    | IgnoreLine
    | InitEvent(cwd: Option<string>)
    | AssistantEvent
    | ResultEvent(isError: bool, summary: string, usage: TokenUsage)
    | TakeCurrent
    | Complete(tid: TaskId, now: int)
    | LeaveLoop(why: Exit)
    | LoadStop
    | Finalize(code: Option<int>)
    | RecoverTask(tid: TaskId, autoRestart: bool, now: int)

  datatype Command =
    | Enqueue(task: Task, now: int)
    | CancelTask(tid: TaskId, now: int)
    | Spawn(sid: SessionId, mode: SessionMode, cwd: string, model: Option<string>)
    | WriteTurn(sid: SessionId)
    | MarkBusy(sid: SessionId)
    | SetAttached(sid: SessionId, on: bool)
    | Kill(sid: SessionId)
    | Remove(sid: SessionId)
    | FailRemoved(tid: TaskId, now: int)
    | Die(sid: SessionId)

  datatype Step = Sched(s: SchedStep) | Read(sid: SessionId, r: ReadStep) | Cmd(c: Command)

  /** Only the scheduler's place changes. */
  predicate OnlySched(x: SchedStep) {
    x.Admit? || x.TakeNone? || x.FindIdle? || x.SpawnFails? || x.Lookup? || x.WriteFails?
  }

  /** Only the reader's place changes. */
  predicate OnlyReader(x: ReadStep) { x.NextLine? || x.IgnoreLine? || x.LeaveLoop? || x.LoadStop? }

  /** The session's record follows a line of output. */
  predicate OnEvent(x: ReadStep) { x.InitEvent? || x.AssistantEvent? || x.ResultEvent? }

  /** A task's record is written after a session's. */
  predicate OnOutcome(x: ReadStep) { x.Complete? || x.RecoverTask? }

  // ----- the scheduler thread -----

  predicate SchedEnabled(s: State, step: SchedStep) {
    match step
    case Admit(cap) => s.sched.Resting? && |ActiveHeadless(s.sessions)| < cap
    case TakeNone => s.sched.Admitting? && forall q :: q in s.tasks ==> s.tasks[q].status != Queued
    case TakeTask(tid) => s.sched.Admitting? && IsNext(s.tasks, tid)
    case FindIdle(sid) =>
      && s.sched.Took? && s.sched.tid in s.tasks
      && sid in s.sessions && Matches(s.sessions[sid], s.tasks[s.sched.tid])
    case SpawnFor(sid) =>
      s.sched.Took? && s.sched.tid in s.tasks && sid !in s.sessions && sid !in s.workers
    case SpawnFails(_) => s.sched.Took?
    case BindTask(tid, sid, _) => s.sched == Chosen(tid, sid)
    case BindSession => s.sched.HalfBound?
    case Lookup => s.sched.Sending?
    case WriteOk => s.sched.Writing?
    case WriteFails(_) => s.sched.Writing?
    case MarkSent => s.sched.Sent?
    case FailTask(_) => s.sched.Failing?
  }

  function SchedApply(s: State, step: SchedStep): State
    requires SchedEnabled(s, step)
  {
    match step
    case Admit(_) => s.(sched := Admitting)
    case TakeNone => s.(sched := Resting)
    case TakeTask(tid) => s.(tasks := MoveIn(s.tasks, tid, Take), sched := Took(tid))
    case FindIdle(sid) => s.(sched := Chosen(s.sched.tid, sid))
    case SpawnFor(sid) =>
      var t := s.tasks[s.sched.tid];
      s.(sessions := s.sessions[sid := Spawned(Headless, t.cwd, t.model)],
         workers := s.workers[sid := NEW_WORKER],
         sched := Chosen(s.sched.tid, sid))
    case SpawnFails(reason) => s.(sched := Failing(s.sched.tid, SpawnError(reason)))
    case BindTask(tid, sid, now) =>
      s.(tasks := MoveIn(s.tasks, tid, Start(sid, now)),
         workers := if sid in s.workers then s.workers[sid := s.workers[sid].(last := Some(tid))] else s.workers,
         sched := HalfBound(tid, sid))
    case BindSession =>
      var sid := s.sched.sid;
      s.(sessions := if sid in s.sessions then s.sessions[sid := s.sessions[sid].(current := Some(s.sched.tid))]
                     else s.sessions,
         sched := Sending(s.sched.tid, sid))
    case Lookup =>
      s.(sched := if s.sched.sid in s.sessions then Writing(s.sched.tid, s.sched.sid)
                  else Failing(s.sched.tid, SendError("unknown session")))
    case WriteOk =>
      s.(workers := Asked(s.workers, s.sched.sid, ForTask(s.sched.tid)), sched := Sent(s.sched.sid))
    case WriteFails(reason) => s.(sched := Failing(s.sched.tid, SendError(reason)))
    case MarkSent => s.(sessions := WithStatus(s.sessions, s.sched.sid, Busy), sched := Resting)
    case FailTask(now) => s.(tasks := MoveIn(s.tasks, s.sched.tid, Fail(s.sched.err, now)), sched := Resting)
  }

  function SpawnError(reason: string): string { "spawn failed: " + reason }

  function SendError(reason: string): string { "send failed: " + reason }

  /** A prompt went down the worker's pipe; its result is awaited after those already awaited. */
  function Asked(workers: map<SessionId, Worker>, sid: SessionId, turn: Turn): map<SessionId, Worker> {
    if sid in workers then workers[sid := workers[sid].(turns := workers[sid].turns + [turn])] else workers
  }

  function WithStatus(sessions: map<SessionId, Session>, sid: SessionId, status: SessionStatus)
    : map<SessionId, Session> {
    if sid in sessions then sessions[sid := sessions[sid].(status := status)] else sessions
  }

  // ----- a reader thread -----

  predicate HandlesEvent(s: State, sid: SessionId)
    requires sid in s.workers
  {
    s.workers[sid].reader.Handling? && (sid in s.sessions ==> s.sessions[sid].mode == Headless)
  }

  predicate ReadEnabled(s: State, sid: SessionId, step: ReadStep) {
    && sid in s.workers
    && var w := s.workers[sid];
    match step
    case NextLine => w.reader.Reading? && !w.stop
    case IgnoreLine => w.reader.Handling?
    case InitEvent(_) => HandlesEvent(s, sid)
    case AssistantEvent => HandlesEvent(s, sid)
    case ResultEvent(_, _, _) => HandlesEvent(s, sid)
    case TakeCurrent => w.reader.SawResult?
    case Complete(tid, _) => w.reader.Completing? && w.reader.tid == tid
    case LeaveLoop(why) => w.reader.Reading? && (why.StopSeen? ==> w.stop)
    case LoadStop => w.reader.Left?
    case Finalize(code) => w.reader.Reaping? && (code.Some? ==> !w.alive)
    case RecoverTask(tid, _, _) => w.reader == Recovering(tid)
  }

  function FinalStatus(requested: bool, code: Option<int>): SessionStatus {
    if requested then Stopped else if code == Some(0) then Completed else Crashed
  }

  function WithReader(s: State, sid: SessionId, r: Reader): State
    requires sid in s.workers
  {
    s.(workers := s.workers[sid := s.workers[sid].(reader := r)])
  }

  /** Results answer the prompts in the order they were written. */
  function Answered(w: Worker, isError: bool, summary: string): Worker {
    if w.turns == [] then w.(reader := SawResult(isError, summary, None))
    else w.(reader := SawResult(isError, summary, Some(w.turns[0])), turns := w.turns[1..])
  }

  function ReadApply(s: State, sid: SessionId, step: ReadStep): State
    requires ReadEnabled(s, sid, step)
  {
    var w := s.workers[sid];
    match step
    case NextLine => WithReader(s, sid, Handling)
    case IgnoreLine => WithReader(s, sid, Reading)
    case InitEvent(cwd) =>
      var s' := WithReader(s, sid, Reading);
      if sid !in s.sessions then s' else
      var i := s.sessions[sid];
      s'.(sessions := s.sessions[sid := i.(cwd := if cwd.Some? then cwd.value else i.cwd,
                                           status := if i.status == Starting then Idle else i.status)])
    case AssistantEvent =>
      WithReader(s, sid, Reading).(sessions := WithStatus(s.sessions, sid, Busy))
    case ResultEvent(isError, summary, usage) =>
      var s' := s.(workers := s.workers[sid := Answered(w, isError, summary)]);
      if sid !in s.sessions then s' else
      var i := s.sessions[sid];
      s'.(sessions := s.sessions[sid := i.(usage := AddUsage(i.usage, usage), status := Idle)])
    case TakeCurrent =>
      if sid in s.sessions && s.sessions[sid].current.Some? then
        WithReader(s, sid, Completing(s.sessions[sid].current.value, w.reader.isError, w.reader.summary))
          .(sessions := s.sessions[sid := s.sessions[sid].(current := None)])
      else WithReader(s, sid, Reading)
    case Complete(tid, now) =>
      WithReader(s, sid, Reading)
        .(tasks := MoveIn(s.tasks, tid, Settle(w.reader.isError, w.reader.summary, now)))
    case LeaveLoop(_) => WithReader(s, sid, Left)
    case LoadStop =>
      s.(workers := s.workers[sid := w.(reader := Reaping(w.stop), letGo := w.alive && !w.stop)])
    case Finalize(code) =>
      if sid !in s.sessions then WithReader(s, sid, Finished(None)) else
      var status := FinalStatus(w.reader.requested, code);
      var i := s.sessions[sid];
      WithReader(s, sid, if status == Crashed && i.current.Some? then Recovering(i.current.value)
                         else Finished(Some(status)))
        .(sessions := s.sessions[sid := i.(status := status)])
    case RecoverTask(tid, autoRestart, now) =>
      WithReader(s, sid, Finished(Some(Crashed)))
        .(tasks := MoveIn(s.tasks, tid, Recover(autoRestart, now)))
  }

  // ----- commands and the outside world -----

  predicate CmdEnabled(s: State, c: Command) {
    match c
    case Enqueue(_, _) => true
    case CancelTask(_, _) => true
    case Spawn(sid, _, _, _) => sid !in s.sessions && sid !in s.workers
    case WriteTurn(sid) =>                          // the pipe's handle outlives the registration
      sid in s.workers && (sid in s.sessions ==> s.sessions[sid].mode == Headless)
    case MarkBusy(sid) => sid in s.marks
    case SetAttached(_, _) => true
    case Kill(sid) => sid in s.sessions
    case Remove(_) => true
    case FailRemoved(tid, _) => tid in s.fails
    case Die(sid) => sid in s.workers
  }

  function StoreStop(workers: map<SessionId, Worker>, sid: SessionId): map<SessionId, Worker> {
    if sid !in workers then workers else
    var w := workers[sid];
    workers[sid := w.(stop := true, stoppedAlive := w.stoppedAlive || w.alive)]
  }

  function Removal(now: int): Move { Fail("session removed", now) }

  function CmdApply(s: State, c: Command): State
    requires CmdEnabled(s, c)
  {
    match c
    case Enqueue(t, now) => s.(tasks := s.tasks[t.id := Enqueued(t, now)])
    case CancelTask(tid, now) => s.(tasks := MoveIn(s.tasks, tid, Cancel(now)))
    case Spawn(sid, mode, cwd, model) =>
      s.(sessions := s.sessions[sid := Spawned(mode, cwd, model)], workers := s.workers[sid := NEW_WORKER])
    case WriteTurn(sid) => s.(workers := Asked(s.workers, sid, ByUser), marks := s.marks + multiset{sid})
    case MarkBusy(sid) => s.(sessions := WithStatus(s.sessions, sid, Busy), marks := s.marks - multiset{sid})
    case SetAttached(sid, on) =>
      if sid in s.sessions then s.(sessions := s.sessions[sid := s.sessions[sid].(attached := on)]) else s
    case Kill(sid) => s.(workers := StoreStop(s.workers, sid))
    case Remove(sid) =>
      if sid !in s.sessions then s else
      var i := s.sessions[sid];
      s.(sessions := s.sessions - {sid},
         workers := if i.status.IsTerminal() then s.workers else StoreStop(s.workers, sid),
         fails := if i.current.Some? then s.fails + multiset{i.current.value} else s.fails)
    case FailRemoved(tid, now) =>
      s.(tasks := MoveIn(s.tasks, tid, Removal(now)), fails := s.fails - multiset{tid})
    case Die(sid) => s.(workers := s.workers[sid := s.workers[sid].(alive := false)])
  }

  // ----- runs -----

  predicate Enabled(s: State, step: Step) {
    match step
    case Sched(x) => SchedEnabled(s, x)
    case Read(sid, x) => ReadEnabled(s, sid, x)
    case Cmd(c) => CmdEnabled(s, c)
  }

  function Apply(s: State, step: Step): State
    requires Enabled(s, step)
  {
    match step
    case Sched(x) => SchedApply(s, x)
    case Read(sid, x) => ReadApply(s, sid, x)
    case Cmd(c) => CmdApply(s, c)
  }

  predicate Legal(s: State, run: seq<Step>)
    decreases |run|
  {
    run == [] || (Enabled(s, run[0]) && Legal(Apply(s, run[0]), run[1..]))
  }

  function Exec(s: State, run: seq<Step>): State
    requires Legal(s, run)
    decreases |run|
  {
    if run == [] then s else Exec(Apply(s, run[0]), run[1..])
  }

  /** What the interface sends: an enqueued task has a new id and no attempts yet. */
  predicate Fresh(s: State, step: Step) {
    step.Cmd? && step.c.Enqueue? ==> step.c.task.id !in s.tasks && step.c.task.attempts == 0
  }

  /** A legal run whose enqueues are all fresh. */
  predicate Proper(s: State, run: seq<Step>)
    decreases |run|
  {
    run == [] ||
    (Enabled(s, run[0]) && Fresh(s, run[0]) && Proper(Apply(s, run[0]), run[1..]))
  }

  lemma {:induction false} ProperIsLegal(s: State, run: seq<Step>)
    requires Proper(s, run)
    ensures Legal(s, run)
    decreases |run|
  {
    if run != [] { ProperIsLegal(Apply(s, run[0]), run[1..]); }
  }

  lemma {:induction false} JoinRuns(s: State, a: seq<Step>, b: seq<Step>)
    requires Legal(s, a) && Legal(Exec(s, a), b)
    ensures Legal(s, a + b) && Exec(s, a + b) == Exec(Exec(s, a), b)
    decreases |a|
  {
    if a == [] {
      assert a + b == b;
    } else {
      assert (a + b)[0] == a[0] && (a + b)[1..] == a[1..] + b;
      JoinRuns(Apply(s, a[0]), a[1..], b);
    }
  }

  lemma OneStep(s: State, step: Step)
    requires Enabled(s, step)
    ensures Legal(s, [step]) && Exec(s, [step]) == Apply(s, step)
  {
    var rest := [step][1..];
    assert rest == [] && Legal(Apply(s, step), rest) && Exec(Apply(s, step), rest) == Apply(s, step);
  }

  lemma {:induction false} JoinProper(s: State, a: seq<Step>, step: Step)
    requires Proper(s, a) && Legal(s, a) && Enabled(Exec(s, a), step) && Fresh(Exec(s, a), step)
    ensures Proper(s, a + [step])
    decreases |a|
  {
    var all := a + [step];
    if a == [] {
      assert all[0] == step && all[1..] == [];
    } else {
      assert all[0] == a[0] && all[1..] == a[1..] + [step];
      JoinProper(Apply(s, a[0]), a[1..], step);
    }
  }

  // ----- what a step writes to the task table -----

  datatype Write = NoWrite | Edit(tid: TaskId, m: Move) | Insert(task: Task, now: int)

  function WriteOf(s: State, step: Step): Write {
    match step
    case Sched(TakeTask(tid)) => Edit(tid, Take)
    case Sched(BindTask(tid, sid, now)) => Edit(tid, Start(sid, now))
    case Sched(FailTask(now)) => if s.sched.Failing? then Edit(s.sched.tid, Fail(s.sched.err, now)) else NoWrite
    case Read(w, Complete(tid, now)) =>
      if w in s.workers && s.workers[w].reader.Completing?
      then Edit(tid, Settle(s.workers[w].reader.isError, s.workers[w].reader.summary, now)) else NoWrite
    case Read(_, RecoverTask(tid, autoRestart, now)) => Edit(tid, Recover(autoRestart, now))
    case Cmd(Enqueue(t, now)) => Insert(t, now)
    case Cmd(CancelTask(tid, now)) => Edit(tid, Cancel(now))
    case Cmd(FailRemoved(tid, now)) => Edit(tid, Removal(now))
    case _ => NoWrite
  }

  function WriteTo(tasks: map<TaskId, Task>, w: Write): map<TaskId, Task> {
    match w
    case NoWrite => tasks
    case Edit(tid, m) => MoveIn(tasks, tid, m)
    case Insert(t, now) => tasks[t.id := Enqueued(t, now)]
  }

  lemma SchedWrites(s: State, x: SchedStep)
    requires SchedEnabled(s, x)
    ensures SchedApply(s, x).tasks == WriteTo(s.tasks, WriteOf(s, Sched(x)))
  {}

  lemma ReadWrites(s: State, w: SessionId, x: ReadStep)
    requires ReadEnabled(s, w, x)
    ensures ReadApply(s, w, x).tasks == WriteTo(s.tasks, WriteOf(s, Read(w, x)))
  {}

  lemma CmdWrites(s: State, c: Command)
    requires CmdEnabled(s, c)
    ensures CmdApply(s, c).tasks == WriteTo(s.tasks, WriteOf(s, Cmd(c)))
  {}

  lemma ApplyWrites(s: State, step: Step)
    requires Enabled(s, step)
    ensures Apply(s, step).tasks == WriteTo(s.tasks, WriteOf(s, step))
  {
    match step
    case Sched(x) => SchedWrites(s, x);
    case Read(w, x) => ReadWrites(s, w, x);
    case Cmd(c) => CmdWrites(s, c);
  }
}
