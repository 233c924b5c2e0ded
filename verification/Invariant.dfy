/** The inductive invariant of the machine: what every lock section keeps. */
module Invariant {
  import opened Model
  import opened Machine

  /** A task may still be started once more. */
  predicate CanStart(t: Task) { t.attempts == 0 || t.attempts < t.maxAttempts }

  function Limit(t: Task): nat { if t.maxAttempts == 0 then 1 else t.maxAttempts }

  /** Taken by the scheduler and not yet started. */
  predicate Unstarted(s: State, tid: TaskId) {
    (s.sched.Took? || s.sched.Chosen?) && s.sched.tid == tid
  }

  predicate InHands(s: State, tid: TaskId) {
    Unstarted(s, tid) || (s.sched.HalfBound? && s.sched.tid == tid)
  }

  /** The task names this worker and is either running or already given up on. */
  predicate LinkedTo(s: State, tid: TaskId, w: SessionId) {
    && tid in s.tasks
    && s.tasks[tid].sessionId == Some(w)
    && (s.tasks[tid].status == Running || s.tasks[tid].status == Failed)
  }

  /** A registered worker whose reader has not finalized it. */
  predicate Live(s: State, w: SessionId) {
    w in s.sessions && w in s.workers && !Finalized(s.workers[w])
  }

  predicate OnWorker(s: State, tid: TaskId, w: SessionId) { Live(s, w) && s.sessions[w].current == Some(tid) }

  predicate InCompletion(s: State, tid: TaskId, w: SessionId) {
    w in s.workers && s.workers[w].reader.Completing? && s.workers[w].reader.tid == tid
  }

  predicate InRecovery(s: State, tid: TaskId, w: SessionId) {
    w in s.workers && s.workers[w].reader == Recovering(tid)
  }

  predicate WorkerHolds(s: State, tid: TaskId, w: SessionId) {
    OnWorker(s, tid, w) || InCompletion(s, tid, w) || InRecovery(s, tid, w)
  }

  /** Somebody answers for a running task. */
  predicate Covered(s: State, tid: TaskId)
    requires tid in s.tasks
  {
    && s.tasks[tid].sessionId.Some?
    && var w := s.tasks[tid].sessionId.value;
    || (w in s.sessions && s.sessions[w].current == Some(tid))
    || InCompletion(s, tid, w)
    || InRecovery(s, tid, w)
    || tid in s.fails
    || s.sched == HalfBound(tid, w)
    || (s.sched == Sending(tid, w) && w !in s.sessions)
    || (s.sched.Failing? && s.sched.tid == tid)
  }

  predicate TaskOk(s: State, tid: TaskId)
    requires tid in s.tasks
  {
    var t := s.tasks[tid];
    && t.id == tid
    && t.attempts <= Limit(t)
    && (t.status == Queued ==> CanStart(t))
    && (t.status == Assigned ==> Unstarted(s, tid) || (s.sched.Failing? && s.sched.tid == tid))
    && (t.status == Running ==> Covered(s, tid))
  }

  predicate WorkerOk(s: State, w: SessionId)
    requires w in s.workers
  {
    var r := s.workers[w].reader;
    && (r.Completing? ==> LinkedTo(s, r.tid, w) && !InHands(s, r.tid))
    && (r.Recovering? ==> LinkedTo(s, r.tid, w) && !InHands(s, r.tid))
    && (Live(s, w) && s.sessions[w].current.Some? ==>
          var tid := s.sessions[w].current.value;
          LinkedTo(s, tid, w) && !InHands(s, tid) && !InCompletion(s, tid, w))
    && (w in s.sessions ==>
          && (s.sessions[w].current.Some? ==> s.workers[w].last == s.sessions[w].current)
          && (if Finalized(s.workers[w]) then s.sessions[w].status.IsTerminal() || s.sessions[w].status == Busy
              else s.sessions[w].status.IsActive()))
  }

  /** The worker the scheduler is binding has no task yet. */
  predicate Vacant(s: State, w: SessionId) {
    w in s.workers && (w in s.sessions ==> s.sessions[w].current == None)
  }

  predicate SchedOk(s: State) {
    match s.sched
    case Took(tid) => tid in s.tasks && CanStart(s.tasks[tid]) && s.tasks[tid].status in {Assigned, Failed}
    case Chosen(tid, w) =>
      tid in s.tasks && CanStart(s.tasks[tid]) && s.tasks[tid].status in {Assigned, Failed} && Vacant(s, w)
    case HalfBound(tid, w) => LinkedTo(s, tid, w) && Vacant(s, w) && s.workers[w].last == Some(tid)
    case Sending(_, w) => w in s.workers
    case Writing(_, w) => w in s.workers
    case _ => true
  }

  predicate Inv(s: State) {
    && (forall w :: w in s.sessions ==> w in s.workers)
    && (forall tid :: tid in s.tasks ==> TaskOk(s, tid))
    && (forall w :: w in s.workers ==> WorkerOk(s, w))
    && SchedOk(s)
  }

  lemma InitInv()
    ensures Inv(INIT)
  {}

  // ----- one lock section at a time -----

  lemma SchedKeepsTask(s: State, x: SchedStep, tid: TaskId)
    requires SchedEnabled(s, x) && SchedOk(s) && tid in s.tasks && TaskOk(s, tid)
    ensures TaskOk(SchedApply(s, x), tid)
  {
    if x.BindSession? { HoldKeepsTask(s, tid); }
    else if OnlySched(x) { TurnKeepsTask(s, x, tid); }
  }

  lemma TurnKeepsTask(s: State, x: SchedStep, tid: TaskId)
    requires OnlySched(x)
    requires SchedEnabled(s, x) && SchedOk(s) && tid in s.tasks && TaskOk(s, tid)
    ensures TaskOk(SchedApply(s, x), tid)
  {}

  lemma HoldKeepsTask(s: State, tid: TaskId)
    requires SchedEnabled(s, BindSession) && SchedOk(s) && tid in s.tasks && TaskOk(s, tid)
    ensures TaskOk(SchedApply(s, BindSession), tid)
  {}

  lemma SchedKeepsWorker(s: State, x: SchedStep, w: SessionId)
    requires SchedEnabled(s, x) && SchedOk(s) && w in s.workers && WorkerOk(s, w)
    ensures WorkerOk(SchedApply(s, x), w)
  {
    if x.BindTask? { StartKeepsWorker(s, x.tid, x.sid, x.now, w); }
    else if OnlySched(x) { MoveKeepsWorker(s, x, w); }
  }

  lemma MoveKeepsWorker(s: State, x: SchedStep, w: SessionId)
    requires OnlySched(x)
    requires SchedEnabled(s, x) && SchedOk(s) && w in s.workers && WorkerOk(s, w)
    ensures WorkerOk(SchedApply(s, x), w)
  {}

  lemma StartKeepsWorker(s: State, tid: TaskId, sid: SessionId, now: int, w: SessionId)
    requires SchedEnabled(s, BindTask(tid, sid, now)) && SchedOk(s) && w in s.workers && WorkerOk(s, w)
    ensures WorkerOk(SchedApply(s, BindTask(tid, sid, now)), w)
  {}

  lemma SchedKeepsSched(s: State, x: SchedStep)
    requires Inv(s) && SchedEnabled(s, x)
    ensures SchedOk(SchedApply(s, x))
  {}

  lemma SchedKeepsInv(s: State, x: SchedStep)
    requires Inv(s) && SchedEnabled(s, x)
    ensures Inv(SchedApply(s, x))
  {
    var s' := SchedApply(s, x);
    forall tid | tid in s'.tasks ensures TaskOk(s', tid) { SchedKeepsTask(s, x, tid); }
    forall w | w in s'.workers ensures WorkerOk(s', w) {
      if w in s.workers { SchedKeepsWorker(s, x, w); }
    }
    SchedKeepsSched(s, x);
  }

  lemma ReadKeepsTask(s: State, w: SessionId, x: ReadStep, tid: TaskId)
    requires ReadEnabled(s, w, x) && WorkerOk(s, w) && tid in s.tasks && TaskOk(s, tid)
    ensures TaskOk(ReadApply(s, w, x), tid)
  {
    if x.Finalize? { VerdictKeepsTask(s, w, x.code, tid); }
    else if OnEvent(x) { EventKeepsTask(s, w, x, tid); }
    else if OnlyReader(x) { MoveKeepsTask(s, w, x, tid); }
  }

  lemma MoveKeepsTask(s: State, w: SessionId, x: ReadStep, tid: TaskId)
    requires OnlyReader(x)
    requires ReadEnabled(s, w, x) && WorkerOk(s, w) && tid in s.tasks && TaskOk(s, tid)
    ensures TaskOk(ReadApply(s, w, x), tid)
  {}

  lemma EventKeepsTask(s: State, w: SessionId, x: ReadStep, tid: TaskId)
    requires OnEvent(x)
    requires ReadEnabled(s, w, x) && WorkerOk(s, w) && tid in s.tasks && TaskOk(s, tid)
    ensures TaskOk(ReadApply(s, w, x), tid)
  {}

  lemma VerdictKeepsTask(s: State, w: SessionId, code: Option<int>, tid: TaskId)
    requires ReadEnabled(s, w, Finalize(code)) && WorkerOk(s, w) && tid in s.tasks && TaskOk(s, tid)
    ensures TaskOk(ReadApply(s, w, Finalize(code)), tid)
  {}

  lemma ReadKeepsOwn(s: State, w: SessionId, x: ReadStep)
    requires ReadEnabled(s, w, x) && WorkerOk(s, w)
    ensures WorkerOk(ReadApply(s, w, x), w)
  {
    if x.Finalize? { VerdictKeepsOwn(s, w, x.code); }
    else if OnEvent(x) { EventKeepsOwn(s, w, x); }
    else if OnlyReader(x) { MoveKeepsOwn(s, w, x); }
  }

  lemma MoveKeepsOwn(s: State, w: SessionId, x: ReadStep)
    requires OnlyReader(x)
    requires ReadEnabled(s, w, x) && WorkerOk(s, w)
    ensures WorkerOk(ReadApply(s, w, x), w)
  {}

  lemma EventKeepsOwn(s: State, w: SessionId, x: ReadStep)
    requires OnEvent(x)
    requires ReadEnabled(s, w, x) && WorkerOk(s, w)
    ensures WorkerOk(ReadApply(s, w, x), w)
  {}

  lemma VerdictKeepsOwn(s: State, w: SessionId, code: Option<int>)
    requires ReadEnabled(s, w, Finalize(code)) && WorkerOk(s, w)
    ensures WorkerOk(ReadApply(s, w, Finalize(code)), w)
  {}

  lemma ReadKeepsOther(s: State, w: SessionId, x: ReadStep, v: SessionId)
    requires ReadEnabled(s, w, x) && WorkerOk(s, w) && v in s.workers && v != w && WorkerOk(s, v)
    ensures WorkerOk(ReadApply(s, w, x), v)
  {
    if x.Finalize? { VerdictKeepsOther(s, w, x.code, v); }
    else if OnEvent(x) { EventKeepsOther(s, w, x, v); }
    else if OnOutcome(x) { OutcomeKeepsOther(s, w, x, v); }
  }

  lemma OutcomeKeepsOther(s: State, w: SessionId, x: ReadStep, v: SessionId)
    requires OnOutcome(x)
    requires ReadEnabled(s, w, x) && WorkerOk(s, w) && v in s.workers && v != w && WorkerOk(s, v)
    ensures WorkerOk(ReadApply(s, w, x), v)
  {}

  lemma EventKeepsOther(s: State, w: SessionId, x: ReadStep, v: SessionId)
    requires OnEvent(x)
    requires ReadEnabled(s, w, x) && WorkerOk(s, w) && v in s.workers && v != w && WorkerOk(s, v)
    ensures WorkerOk(ReadApply(s, w, x), v)
  {}

  lemma VerdictKeepsOther(s: State, w: SessionId, code: Option<int>, v: SessionId)
    requires ReadEnabled(s, w, Finalize(code)) && v in s.workers && v != w && WorkerOk(s, v)
    ensures WorkerOk(ReadApply(s, w, Finalize(code)), v)
  {}

  lemma ReadKeepsSched(s: State, w: SessionId, x: ReadStep)
    requires ReadEnabled(s, w, x) && WorkerOk(s, w) && SchedOk(s)
    ensures SchedOk(ReadApply(s, w, x))
  {
    if OnOutcome(x) { OutcomeKeepsSched(s, w, x); }
  }

  lemma OutcomeKeepsSched(s: State, w: SessionId, x: ReadStep)
    requires OnOutcome(x)
    requires ReadEnabled(s, w, x) && WorkerOk(s, w) && SchedOk(s)
    ensures SchedOk(ReadApply(s, w, x))
  {}


  lemma ReadKeepsInv(s: State, w: SessionId, x: ReadStep)
    requires Inv(s) && ReadEnabled(s, w, x)
    ensures Inv(ReadApply(s, w, x))
  {
    var s' := ReadApply(s, w, x);
    forall tid | tid in s'.tasks ensures TaskOk(s', tid) { ReadKeepsTask(s, w, x, tid); }
    forall v | v in s'.workers ensures WorkerOk(s', v) {
      if v == w { ReadKeepsOwn(s, w, x); } else { ReadKeepsOther(s, w, x, v); }
    }
    ReadKeepsSched(s, w, x);
  }

  lemma CmdKeepsTask(s: State, c: Command, tid: TaskId)
    requires CmdEnabled(s, c) && Fresh(s, Cmd(c)) && SchedOk(s) && tid in s.tasks && TaskOk(s, tid)
    ensures TaskOk(CmdApply(s, c), tid)
  {
    if c.Remove? { RemoveKeepsTask(s, c.sid, tid); }
    else if c.Enqueue? || c.CancelTask? || c.FailRemoved? { EditKeepsTask(s, c, tid); }
  }

  lemma EditKeepsTask(s: State, c: Command, tid: TaskId)
    requires c.Enqueue? || c.CancelTask? || c.FailRemoved?
    requires CmdEnabled(s, c) && Fresh(s, Cmd(c)) && tid in s.tasks && TaskOk(s, tid)
    ensures TaskOk(CmdApply(s, c), tid)
  {}

  lemma RemoveKeepsTask(s: State, sid: SessionId, tid: TaskId)
    requires tid in s.tasks && TaskOk(s, tid)
    ensures TaskOk(CmdApply(s, Remove(sid)), tid)
  {}

  lemma CmdKeepsWorker(s: State, c: Command, w: SessionId)
    requires CmdEnabled(s, c) && Fresh(s, Cmd(c)) && w in s.workers && WorkerOk(s, w)
    ensures WorkerOk(CmdApply(s, c), w)
  {
    if c.Remove? { RemoveKeepsWorker(s, c.sid, w); }
    else if c.Enqueue? || c.CancelTask? || c.FailRemoved? { EditKeepsWorker(s, c, w); }
    else if c.Spawn? { SpawnKeepsWorker(s, c, w); }
    else if c.Kill? || c.Die? || c.WriteTurn? { SignalKeepsWorker(s, c, w); }
  }

  lemma SignalKeepsWorker(s: State, c: Command, w: SessionId)
    requires c.Kill? || c.Die? || c.WriteTurn?
    requires CmdEnabled(s, c) && Fresh(s, Cmd(c)) && w in s.workers && WorkerOk(s, w)
    ensures WorkerOk(CmdApply(s, c), w)
  {}

  lemma SpawnKeepsWorker(s: State, c: Command, w: SessionId)
    requires c.Spawn?
    requires CmdEnabled(s, c) && Fresh(s, Cmd(c)) && w in s.workers && WorkerOk(s, w)
    ensures WorkerOk(CmdApply(s, c), w)
  {}

  lemma EditKeepsWorker(s: State, c: Command, w: SessionId)
    requires c.Enqueue? || c.CancelTask? || c.FailRemoved?
    requires CmdEnabled(s, c) && Fresh(s, Cmd(c)) && w in s.workers && WorkerOk(s, w)
    ensures WorkerOk(CmdApply(s, c), w)
  {}

  lemma RemoveKeepsWorker(s: State, sid: SessionId, w: SessionId)
    requires w in s.workers && WorkerOk(s, w)
    ensures WorkerOk(CmdApply(s, Remove(sid)), w)
  {}

  lemma CmdKeepsSched(s: State, c: Command)
    requires CmdEnabled(s, c) && Fresh(s, Cmd(c)) && SchedOk(s)
    ensures SchedOk(CmdApply(s, c))
  {
    if c.Remove? { RemoveKeepsSched(s, c.sid); }
    else if c.Enqueue? || c.CancelTask? || c.FailRemoved? { EditKeepsSched(s, c); }
  }

  lemma RemoveKeepsSched(s: State, sid: SessionId)
    requires SchedOk(s)
    ensures SchedOk(CmdApply(s, Remove(sid)))
  {}

  lemma EditKeepsSched(s: State, c: Command)
    requires c.Enqueue? || c.CancelTask? || c.FailRemoved?
    requires CmdEnabled(s, c) && Fresh(s, Cmd(c)) && SchedOk(s)
    ensures SchedOk(CmdApply(s, c))
  {}

  lemma CmdKeepsInv(s: State, c: Command)
    requires Inv(s) && CmdEnabled(s, c) && Fresh(s, Cmd(c))
    ensures Inv(CmdApply(s, c))
  {
    var s' := CmdApply(s, c);
    forall tid | tid in s'.tasks ensures TaskOk(s', tid) {
      if tid in s.tasks { CmdKeepsTask(s, c, tid); }
    }
    forall w | w in s'.workers ensures WorkerOk(s', w) {
      if w in s.workers { CmdKeepsWorker(s, c, w); }
    }
    CmdKeepsSched(s, c);
  }

  lemma StepKeepsInv(s: State, step: Step)
    requires Inv(s) && Enabled(s, step) && Fresh(s, step)
    ensures Inv(Apply(s, step))
  {
    match step
    case Sched(x) => SchedKeepsInv(s, x);
    case Read(w, x) => ReadKeepsInv(s, w, x);
    case Cmd(c) => CmdKeepsInv(s, c);
  }

  lemma {:induction false} RunKeepsInv(s: State, run: seq<Step>)
    requires Inv(s) && Proper(s, run)
    ensures Legal(s, run) && Inv(Exec(s, run))
    decreases |run|
  {
    if run != [] {
      StepKeepsInv(s, run[0]);
      RunKeepsInv(Apply(s, run[0]), run[1..]);
    }
  }

  /** Some proper interleaving leads from the empty orchestrator to `s`. */
  ghost predicate Reachable(s: State) {
    exists run :: Proper(INIT, run) && Legal(INIT, run) && Exec(INIT, run) == s
  }

  lemma ReachableInv(s: State)
    requires Reachable(s)
    ensures Inv(s)
  {
    var run :| Proper(INIT, run) && Legal(INIT, run) && Exec(INIT, run) == s;
    InitInv();
    RunKeepsInv(INIT, run);
  }

  lemma ReachableInit()
    ensures Reachable(INIT)
  {
    var none: seq<Step> := [];
    assert Proper(INIT, none) && Legal(INIT, none) && Exec(INIT, none) == INIT;
  }

  lemma ReachableStep(s: State, step: Step)
    requires Reachable(s) && Enabled(s, step) && Fresh(s, step)
    ensures Reachable(Apply(s, step))
  {
    var run :| Proper(INIT, run) && Legal(INIT, run) && Exec(INIT, run) == s;
    OneStep(s, step);
    JoinRuns(INIT, run, [step]);
    JoinProper(INIT, run, step);
    assert Proper(INIT, run + [step]) && Legal(INIT, run + [step]) && Exec(INIT, run + [step]) == Apply(s, step);
  }
}
