/** The records shared by the whole orchestrator, and the ways a task's record changes.
    Identifiers (UUID strings in the program) are natural numbers here. */
module Model {
  datatype Option<+T> = None | Some(value: T)

  type SessionId = nat
  type TaskId = nat
  type u32 = x: int | 0 <= x < 0x1_0000_0000

  datatype SessionMode = Headless | Interactive | Shell

  datatype SessionStatus = Starting | Idle | Busy | Completed | Crashed | Stopped {
    predicate IsActive() { Starting? || Idle? || Busy? }

    predicate IsTerminal() { Completed? || Crashed? || Stopped? }
  }

  datatype TaskStatus = Queued | Assigned | Running | Done | Failed | Canceled

  datatype Task = Task(
    id: TaskId,
    prompt: string,
    cwd: string,
    model: Option<string>,
    permissionMode: Option<string>,
    allowedTools: Option<string>,
    status: TaskStatus,
    sessionId: Option<SessionId>,
    priority: int,
    attempts: u32,
    maxAttempts: u32,
    createdAt: int,
    startedAt: Option<int>,
    finishedAt: Option<int>,
    resultSummary: Option<string>,
    error: Option<string>)

  /** The token counters of a session; each is a 64-bit unsigned word that wraps. */
  datatype TokenUsage = TokenUsage(input: nat, output: nat, cacheCreation: nat, cacheRead: nat)

  const U64: nat := 0x1_0000_0000_0000_0000

  predicate Fits(u: TokenUsage) {
    u.input < U64 && u.output < U64 && u.cacheCreation < U64 && u.cacheRead < U64
  }

  const NO_TOKENS := TokenUsage(0, 0, 0, 0)

  /** `n` modulo 2^64. */
  function Word(n: nat): nat { if n < U64 then n else Word(n - U64) }

  function AddU64(a: nat, b: nat): nat { Word(a + b) }

  /** Folds one turn's usage into the running one. */
  function AddUsage(a: TokenUsage, b: TokenUsage): TokenUsage {
    TokenUsage(AddU64(a.input, b.input), AddU64(a.output, b.output),
               AddU64(a.cacheCreation, b.cacheCreation), AddU64(a.cacheRead, b.cacheRead))
  }

  function TotalTokens(u: TokenUsage): nat {
    AddU64(AddU64(AddU64(u.input, u.output), u.cacheCreation), u.cacheRead)
  }

  datatype Session = Session(
    mode: SessionMode,
    status: SessionStatus,
    cwd: string,
    specModel: Option<string>,
    usage: TokenUsage,
    current: Option<TaskId>,
    attached: bool)

  /** The record a spawn registers: headless workers wait for their handshake,
      terminals are ready at once. */
  function Spawned(mode: SessionMode, cwd: string, model: Option<string>): Session {
    Session(mode, if mode.Headless? then Starting else Idle, cwd, model, NO_TOKENS, None, false)
  }

  datatype Config = Config(
    maxConcurrent: nat,
    maxAttached: nat,
    ringBytes: nat,
    autoRestart: bool,
    sessionPooling: bool)

  // ----- how a task's record changes -----

  /** Every write to a task that is already in the table. */
  datatype Move =
    | Take
    | Start(sid: SessionId, now: int)
    | Settle(isError: bool, summary: string, now: int)
    | Recover(autoRestart: bool, now: int)
    | Fail(err: string, now: int)
    | Cancel(now: int)

  function Increment(n: u32): u32 { if n == 0xFFFF_FFFF then 0 else n + 1 }

  /** Short texts are kept; of a long one its first `max` characters and an ellipsis. */
  function Truncate(s: string, max: nat): (r: string)
    ensures |s| <= max ==> r == s
    ensures |s| > max ==> |r| == max + 1 && r[..max] == s[..max] && r[max] == '\U{2026}'
  {
    if |s| <= max then s else s[..max] + ['\U{2026}']
  }

  function Moved(t: Task, m: Move): Task {
    match m
    case Take => t.(status := Assigned)
    case Start(sid, now) =>
      t.(status := Running, sessionId := Some(sid), startedAt := Some(now), attempts := Increment(t.attempts))
    case Settle(isError, summary, now) =>
      if isError then t.(status := Failed, finishedAt := Some(now), error := Some(Truncate(summary, 300)))
      else t.(status := Done, finishedAt := Some(now), resultSummary := Some(Truncate(summary, 300)))
    case Recover(autoRestart, now) =>
      if autoRestart && t.attempts < t.maxAttempts then
        t.(status := Queued, sessionId := None, startedAt := None)
      else
        t.(status := Failed, finishedAt := Some(now), error := Some("session crashed"))
    case Fail(err, now) => t.(status := Failed, finishedAt := Some(now), error := Some(err))
    case Cancel(now) =>
      if t.status == Queued then t.(status := Canceled, finishedAt := Some(now)) else t
  }

  function MoveIn(tasks: map<TaskId, Task>, tid: TaskId, m: Move): map<TaskId, Task> {
    if tid in tasks then tasks[tid := Moved(tasks[tid], m)] else tasks
  }

  function Enqueued(t: Task, now: int): Task { t.(status := Queued, createdAt := now) }

  // ----- the queue order -----

  /** `a` is served no later than `b`: higher priority first, then older first. */
  predicate RanksAtLeast(a: Task, b: Task) {
    a.priority > b.priority || (a.priority == b.priority && a.createdAt <= b.createdAt)
  }

  function Compare(x: int, y: int): int { if x < y then -1 else if x > y then 1 else 0 }

  /** The comparison `take_next_task` maximizes. */
  function TakeOrder(a: Task, b: Task): int {
    if Compare(a.priority, b.priority) != 0 then Compare(a.priority, b.priority) else Compare(b.createdAt, a.createdAt)
  }

  /** The comparison `list_tasks` sorts by. */
  function ListOrder(a: Task, b: Task): int {
    if Compare(b.priority, a.priority) != 0 then Compare(b.priority, a.priority) else Compare(a.createdAt, b.createdAt)
  }

  /** The two orders are each other's reverse, ties included. */
  lemma OrdersAgree(a: Task, b: Task)
    ensures TakeOrder(a, b) >= 0 <==> RanksAtLeast(a, b)
    ensures ListOrder(a, b) <= 0 <==> RanksAtLeast(a, b)
  {}

  /** `tid` is one of the queued tasks nothing queued outranks. */
  predicate IsNext(tasks: map<TaskId, Task>, tid: TaskId) {
    && tid in tasks && tasks[tid].status == Queued
    && forall q {:trigger RanksAtLeast(tasks[tid], tasks[q])} ::
         q in tasks && tasks[q].status == Queued ==> RanksAtLeast(tasks[tid], tasks[q])
  }

  /** An idle pooled worker in the task's context. */
  predicate Matches(s: Session, t: Task) {
    && s.mode == Headless && s.status == Idle && s.current == None
    && s.cwd == t.cwd && s.specModel == t.model
  }

  function ActiveHeadless(sessions: map<SessionId, Session>): set<SessionId> {
    set w | w in sessions && sessions[w].mode == Headless && sessions[w].status.IsActive()
  }
}
