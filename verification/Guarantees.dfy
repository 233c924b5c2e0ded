/** What holds in every interleaving: one execution token per task, a bounded number of starts,
    no running task that nobody answers for, and what results and recoveries do to a task. */
module Guarantees {
  import opened Model
  import opened Machine
  import opened Invariant

  // ----- the execution token -----

  /** The places the right to run a task can be in. */
  datatype Place =
    | InQueue
    | AtScheduler
    | AtWorker(w: SessionId)
    | AtCompletion(w: SessionId)
    | AtRecovery(w: SessionId)

  predicate Holds(s: State, tid: TaskId, p: Place) {
    match p
    case InQueue => tid in s.tasks && s.tasks[tid].status == Queued
    case AtScheduler => InHands(s, tid)
    case AtWorker(w) => OnWorker(s, tid, w)
    case AtCompletion(w) => InCompletion(s, tid, w)
    case AtRecovery(w) => InRecovery(s, tid, w)
  }

  ghost function Places(s: State, tid: TaskId): set<Place> {
    (set p | p in {InQueue, AtScheduler} && Holds(s, tid, p))
    + (set w | w in s.workers && OnWorker(s, tid, w) :: AtWorker(w))
    + (set w | w in s.workers && InCompletion(s, tid, w) :: AtCompletion(w))
    + (set w | w in s.workers && InRecovery(s, tid, w) :: AtRecovery(w))
  }

  lemma PlacesAreHolds(s: State, tid: TaskId, p: Place)
    ensures p in Places(s, tid) <==> Holds(s, tid, p)
  {}

  lemma HeldByWorkerIsLinked(s: State, tid: TaskId, w: SessionId)
    requires Inv(s) && WorkerHolds(s, tid, w)
    ensures LinkedTo(s, tid, w) && !InHands(s, tid)
  {
    assert WorkerOk(s, w);
  }

  lemma HeldOnce(s: State, tid: TaskId, p: Place, q: Place)
    requires Inv(s) && Holds(s, tid, p) && Holds(s, tid, q)
    ensures p == q
  {
    if p.AtWorker? || p.AtCompletion? || p.AtRecovery? { HeldByWorkerIsLinked(s, tid, p.w); assert WorkerOk(s, p.w); }
    if q.AtWorker? || q.AtCompletion? || q.AtRecovery? { HeldByWorkerIsLinked(s, tid, q.w); }
  }

  lemma AtMostOne<T>(x: set<T>)
    requires forall p, q :: p in x && q in x ==> p == q
    ensures |x| <= 1
  {
    if p :| p in x { assert x == {p}; }
  }

  /** In every reachable state the places holding a task number at most one: it never runs on two
      live workers, nor waits in the queue while a worker, a completion or a recovery has it. */
  lemma SingleToken(s: State, tid: TaskId)
    requires Reachable(s)
    ensures |Places(s, tid)| <= 1
  {
    ReachableInv(s);
    InvHasOneToken(s, tid);
  }

  lemma InvHasOneToken(s: State, tid: TaskId)
    requires Inv(s)
    ensures |Places(s, tid)| <= 1
  {
    forall p, q | p in Places(s, tid) && q in Places(s, tid) ensures p == q {
      PlacesAreHolds(s, tid, p);
      PlacesAreHolds(s, tid, q);
      HeldOnce(s, tid, p, q);
    }
    AtMostOne(Places(s, tid));
  }

  lemma EnqueuedPlaces(s: State, t: Task, now: int, p: Place)
    ensures Holds(CmdApply(s, Enqueue(t, now)), t.id, p) <==> p == InQueue || Holds(s, t.id, p)
  {}

  lemma SingleIff(before: set<Place>, after: set<Place>)
    requires after == before + {InQueue}
    ensures |after| <= 1 <==> before <= {InQueue}
  {
    if p :| p in before && p != InQueue {
      SubsetSize({InQueue, p}, after);
    } else {
      assert after == {InQueue};
    }
  }

  /** Enqueuing under any id, new or not, leaves that id a single token if and only if nobody but the
      queue has it: not the scheduler, no live worker, no pending completion or recovery. */
  lemma EnqueueKeepsTokenIff(s: State, t: Task, now: int)
    ensures |Places(CmdApply(s, Enqueue(t, now)), t.id)| <= 1 <==> Places(s, t.id) <= {InQueue}
  {
    EnqueueAddsPlace(s, t, now);
    SingleIff(Places(s, t.id), Places(CmdApply(s, Enqueue(t, now)), t.id));
  }

  lemma EnqueueAddsPlace(s: State, t: Task, now: int)
    ensures Places(CmdApply(s, Enqueue(t, now)), t.id) == Places(s, t.id) + {InQueue}
  {
    var before, after := Places(s, t.id), Places(CmdApply(s, Enqueue(t, now)), t.id);
    forall p ensures p in after <==> p in before || p == InQueue {
      PlacesAreHolds(s, t.id, p);
      PlacesAreHolds(CmdApply(s, Enqueue(t, now)), t.id, p);
      EnqueuedPlaces(s, t, now, p);
    }
  }

  // ----- reused ids over whole runs -----

  /** Only the queue, if anybody, has the id that is enqueued. */
  ghost predicate Admissible(s: State, step: Step) {
    step.Cmd? && step.c.Enqueue? ==> Places(s, step.c.task.id) <= {InQueue}
  }

  lemma AdmissibleKeepsInv(s: State, step: Step)
    requires Inv(s) && Enabled(s, step) && Admissible(s, step)
    requires step.Cmd? && step.c.Enqueue? ==> step.c.task.attempts == 0
    ensures Inv(Apply(s, step))
  {
    if step.Cmd? && step.c.Enqueue? {
      forall p | p != InQueue ensures !Holds(s, step.c.task.id, p) { PlacesAreHolds(s, step.c.task.id, p); }
      EnqueueKeepsInv(s, step.c.task, step.c.now);
    } else {
      StepKeepsInv(s, step);
    }
  }

  lemma EnqueueKeepsInv(s: State, t: Task, now: int)
    requires Inv(s) && t.attempts == 0 && forall p :: p != InQueue ==> !Holds(s, t.id, p)
    ensures Inv(CmdApply(s, Enqueue(t, now)))
  {
    var s' := CmdApply(s, Enqueue(t, now));
    assert !Holds(s, t.id, AtScheduler);
    forall tid | tid in s'.tasks ensures TaskOk(s', tid) {
      if tid != t.id { assert TaskOk(s, tid); }
    }
    forall w | w in s'.workers ensures WorkerOk(s', w) {
      assert WorkerOk(s, w);
      assert !Holds(s, t.id, AtWorker(w)) && !Holds(s, t.id, AtCompletion(w)) && !Holds(s, t.id, AtRecovery(w));
    }
  }

  /** At every point of the run every task has one token at most. */
  ghost predicate AlwaysSingle(s: State, run: seq<Step>)
    requires Legal(s, run)
    decreases |run|
  {
    (forall tid :: |Places(s, tid)| <= 1) && (run != [] ==> AlwaysSingle(Apply(s, run[0]), run[1..]))
  }

  ghost predicate AllAdmissible(s: State, run: seq<Step>)
    requires Legal(s, run)
    decreases |run|
  {
    run != [] ==> Admissible(s, run[0]) && AllAdmissible(Apply(s, run[0]), run[1..])
  }

  predicate EnqueuesUntried(run: seq<Step>) {
    forall i :: 0 <= i < |run| && run[i].Cmd? && run[i].c.Enqueue? ==> run[i].c.task.attempts == 0
  }

  /** In a run whose enqueued tasks carry no attempts, under ids new or used before, every task has a
      single token throughout if and only if no id is enqueued while somebody other than the queue has it. */
  lemma {:induction false} SingleTokenIff(s: State, run: seq<Step>)
    requires Inv(s) && Legal(s, run) && EnqueuesUntried(run)
    ensures AlwaysSingle(s, run) <==> AllAdmissible(s, run)
    decreases |run|
  {
    forall tid ensures |Places(s, tid)| <= 1 { InvHasOneToken(s, tid); }
    if run != [] {
      var s' := Apply(s, run[0]);
      if Admissible(s, run[0]) {
        AdmissibleKeepsInv(s, run[0]);
        UntriedTail(run);
        SingleTokenIff(s', run[1..]);
      } else {
        EnqueueKeepsTokenIff(s, run[0].c.task, run[0].c.now);
        assert |Places(s', run[0].c.task.id)| > 1;
      }
    }
  }

  lemma UntriedTail(run: seq<Step>)
    requires run != [] && EnqueuesUntried(run)
    ensures EnqueuesUntried(run[1..])
  {
    forall i | 0 <= i < |run| - 1 && run[1..][i].Cmd? && run[1..][i].c.Enqueue?
      ensures run[1..][i].c.task.attempts == 0
    {
      assert run[1..][i] == run[i + 1];
    }
  }

  lemma SubsetSize<T>(a: set<T>, b: set<T>)
    requires a <= b
    ensures |a| <= |b|
  {
    assert b == a + (b - a);
  }

  // ----- where a task runs -----

  /** The worker the scheduler settles on, found or spawned, is headless, in the task's directory and on the
      task's model; a found one was idle and held no task. */
  lemma ChosenWorkerFits(s: State, x: SchedStep)
    requires SchedEnabled(s, x) && (x.FindIdle? || x.SpawnFor?)
    ensures var s' := SchedApply(s, x);
            && s'.sched == Chosen(s.sched.tid, x.sid) && s.sched.tid in s.tasks && x.sid in s'.sessions
            && var t, i := s.tasks[s.sched.tid], s'.sessions[x.sid];
            && i.mode == Headless && i.cwd == t.cwd && i.specModel == t.model && i.current == None
            && (if x.FindIdle? then x.sid in s.sessions && i == s.sessions[x.sid] && i.status == Idle
                else x.sid !in s.sessions && i.status == Starting && i.usage == NO_TOKENS && !i.attached)
  {}

  /** The session is headless and was started for the task's model. */
  predicate Suits(s: State, tid: TaskId, w: SessionId) {
    tid in s.tasks && w in s.sessions && s.sessions[w].mode == Headless && s.sessions[w].specModel == s.tasks[tid].model
  }

  predicate SuitedOk(s: State, tid: TaskId, w: SessionId) {
    w in s.sessions ==>
      && (s.sessions[w].current == Some(tid) ==> Suits(s, tid, w))
      && (s.sched == Chosen(tid, w) || s.sched == HalfBound(tid, w) ==> Suits(s, tid, w))
  }

  lemma SchedKeepsSuited(s: State, x: SchedStep, tid: TaskId, w: SessionId)
    requires SchedEnabled(s, x) && SchedOk(s) && SuitedOk(s, tid, w)
    ensures SuitedOk(SchedApply(s, x), tid, w)
  {
    if OnlySched(x) { MoveKeepsSuited(s, x, tid, w); }
  }

  lemma MoveKeepsSuited(s: State, x: SchedStep, tid: TaskId, w: SessionId)
    requires OnlySched(x)
    requires SchedEnabled(s, x) && SchedOk(s) && SuitedOk(s, tid, w)
    ensures SuitedOk(SchedApply(s, x), tid, w)
  {}

  lemma ReadKeepsSuited(s: State, v: SessionId, x: ReadStep, tid: TaskId, w: SessionId)
    requires ReadEnabled(s, v, x) && SuitedOk(s, tid, w)
    ensures SuitedOk(ReadApply(s, v, x), tid, w)
  {}

  lemma CmdKeepsSuited(s: State, c: Command, tid: TaskId, w: SessionId)
    requires CmdEnabled(s, c) && Fresh(s, Cmd(c)) && SchedOk(s) && (w in s.sessions ==> w in s.workers)
    requires SuitedOk(s, tid, w)
    ensures SuitedOk(CmdApply(s, c), tid, w)
  {
    if c.Enqueue? || c.CancelTask? || c.FailRemoved? { EditKeepsSuited(s, c, tid, w); }
  }

  lemma EditKeepsSuited(s: State, c: Command, tid: TaskId, w: SessionId)
    requires c.Enqueue? || c.CancelTask? || c.FailRemoved?
    requires CmdEnabled(s, c) && Fresh(s, Cmd(c)) && SuitedOk(s, tid, w)
    ensures SuitedOk(CmdApply(s, c), tid, w)
  {}

  lemma {:induction false} RunKeepsSuited(s: State, run: seq<Step>, tid: TaskId, w: SessionId)
    requires Inv(s) && Proper(s, run) && Legal(s, run) && SuitedOk(s, tid, w)
    ensures SuitedOk(Exec(s, run), tid, w)
    decreases |run|
  {
    if run != [] {
      match run[0] {
        case Sched(x) => SchedKeepsSuited(s, x, tid, w);
        case Read(v, x) => ReadKeepsSuited(s, v, x, tid, w);
        case Cmd(c) => CmdKeepsSuited(s, c, tid, w);
      }
      StepKeepsInv(s, run[0]);
      RunKeepsSuited(Apply(s, run[0]), run[1..], tid, w);
    }
  }

  /** In every reachable state a session that holds a task, live or over, is headless and on that task's model. */
  lemma RunsOnItsModel(s: State, tid: TaskId, w: SessionId)
    requires Reachable(s) && w in s.sessions && s.sessions[w].current == Some(tid)
    ensures tid in s.tasks && s.sessions[w].mode == Headless && s.sessions[w].specModel == s.tasks[tid].model
  {
    var run :| Proper(INIT, run) && Legal(INIT, run) && Exec(INIT, run) == s;
    InitInv();
    RunKeepsSuited(INIT, run, tid, w);
  }

  // ----- links, retries, nothing dangling -----

  /** A live worker holding a task is the one the task names and the last one it was started on. */
  lemma TwoWayLink(s: State, tid: TaskId, w: SessionId)
    requires Reachable(s)
    ensures OnWorker(s, tid, w) ==> LinkedTo(s, tid, w) && s.workers[w].last == Some(tid)
    ensures InCompletion(s, tid, w) ==> LinkedTo(s, tid, w)
  {
    ReachableInv(s);
    if WorkerHolds(s, tid, w) { HeldByWorkerIsLinked(s, tid, w); assert WorkerOk(s, w); }
  }

  lemma RetryBound(s: State, tid: TaskId)
    requires Reachable(s)
    ensures tid in s.tasks ==>
              && s.tasks[tid].attempts <= Limit(s.tasks[tid])
              && (s.tasks[tid].status == Queued || Unstarted(s, tid) ==> CanStart(s.tasks[tid]))
  {
    ReachableInv(s);
    if tid in s.tasks { assert TaskOk(s, tid); }
  }

  /** Every running task has somebody who answers for it, and an assigned one is with the scheduler. */
  lemma NothingDangles(s: State, tid: TaskId)
    requires Reachable(s)
    ensures tid in s.tasks && s.tasks[tid].status == Running ==> Covered(s, tid)
    ensures tid in s.tasks && s.tasks[tid].status == Assigned ==>
              !s.sched.Resting? && (Unstarted(s, tid) || (s.sched.Failing? && s.sched.tid == tid))
  {
    ReachableInv(s);
    if tid in s.tasks { assert TaskOk(s, tid); }
  }

  // ----- counting starts and outcomes over whole runs -----

  function Starts(run: seq<Step>, tid: TaskId): nat
    decreases |run|
  {
    if run == [] then 0 else
    (if run[0].Sched? && run[0].s.BindTask? && run[0].s.tid == tid then 1 else 0) + Starts(run[1..], tid)
  }

  predicate IsOutcome(step: Step, tid: TaskId) {
    step.Read? && ((step.r.Complete? && step.r.tid == tid) || (step.r.RecoverTask? && step.r.tid == tid))
  }

  function Outcomes(run: seq<Step>, tid: TaskId): nat
    decreases |run|
  {
    if run == [] then 0 else (if IsOutcome(run[0], tid) then 1 else 0) + Outcomes(run[1..], tid)
  }

  function Attempts(s: State, tid: TaskId): nat { if tid in s.tasks then s.tasks[tid].attempts else 0 }

  lemma StepCountsStart(s: State, step: Step, tid: TaskId)
    requires SchedOk(s) && Enabled(s, step) && Fresh(s, step)
    ensures Attempts(Apply(s, step), tid) == Attempts(s, tid) + Starts([step], tid)
  {
    ApplyWrites(s, step);
  }

  /** The attempts counter is exactly the number of times the task was started; it never wraps. */
  lemma {:induction false} AttemptsCountStarts(s: State, run: seq<Step>, tid: TaskId)
    requires Inv(s) && Proper(s, run)
    ensures Legal(s, run) && Attempts(Exec(s, run), tid) == Attempts(s, tid) + Starts(run, tid)
    decreases |run|
  {
    if run != [] {
      StepCountsStart(s, run[0], tid);
      StepKeepsInv(s, run[0]);
      AttemptsCountStarts(Apply(s, run[0]), run[1..], tid);
    }
  }

  /** Started, and its outcome not yet delivered. */
  function Owed(s: State, tid: TaskId): nat {
    if (s.sched.HalfBound? && s.sched.tid == tid)
       || (tid in s.tasks && s.tasks[tid].sessionId.Some? && WorkerHolds(s, tid, s.tasks[tid].sessionId.value))
    then 1 else 0
  }

  lemma SchedPaysOnce(s: State, x: SchedStep, tid: TaskId)
    requires SchedEnabled(s, x) && SchedOk(s)
    requires tid in s.tasks ==> TaskOk(s, tid)
    requires tid in s.tasks && s.tasks[tid].sessionId.Some? && s.tasks[tid].sessionId.value in s.workers ==>
               WorkerOk(s, s.tasks[tid].sessionId.value)
    ensures Owed(SchedApply(s, x), tid) <= Owed(s, tid) + Starts([Sched(x)], tid)
  {
    if x.BindSession? { HoldPaysOnce(s, tid); }
    else if OnlySched(x) { MovePaysOnce(s, x, tid); }
    else if x.BindTask? { StartPaysOnce(s, x, tid); }
  }

  lemma StartPaysOnce(s: State, x: SchedStep, tid: TaskId)
    requires x.BindTask?
    requires SchedEnabled(s, x) && SchedOk(s)
    requires tid in s.tasks ==> TaskOk(s, tid)
    requires tid in s.tasks && s.tasks[tid].sessionId.Some? && s.tasks[tid].sessionId.value in s.workers ==>
               WorkerOk(s, s.tasks[tid].sessionId.value)
    ensures Owed(SchedApply(s, x), tid) <= Owed(s, tid) + Starts([Sched(x)], tid)
  {}

  lemma MovePaysOnce(s: State, x: SchedStep, tid: TaskId)
    requires OnlySched(x)
    requires SchedEnabled(s, x) && SchedOk(s)
    requires tid in s.tasks ==> TaskOk(s, tid)
    requires tid in s.tasks && s.tasks[tid].sessionId.Some? && s.tasks[tid].sessionId.value in s.workers ==>
               WorkerOk(s, s.tasks[tid].sessionId.value)
    ensures Owed(SchedApply(s, x), tid) <= Owed(s, tid) + Starts([Sched(x)], tid)
  {}

  lemma HoldPaysOnce(s: State, tid: TaskId)
    requires SchedEnabled(s, BindSession) && SchedOk(s)
    ensures Owed(SchedApply(s, BindSession), tid) <= Owed(s, tid)
  {}

  lemma ReadPaysOnce(s: State, w: SessionId, x: ReadStep, tid: TaskId)
    requires ReadEnabled(s, w, x) && WorkerOk(s, w)
    ensures Owed(ReadApply(s, w, x), tid) + Outcomes([Read(w, x)], tid) <= Owed(s, tid)
  {
    if OnEvent(x) { EventPaysOnce(s, w, x, tid); }
    else if OnOutcome(x) { OutcomePaysOnce(s, w, x, tid); }
  }

  lemma OutcomePaysOnce(s: State, w: SessionId, x: ReadStep, tid: TaskId)
    requires OnOutcome(x)
    requires ReadEnabled(s, w, x) && WorkerOk(s, w)
    ensures Owed(ReadApply(s, w, x), tid) + Outcomes([Read(w, x)], tid) <= Owed(s, tid)
  {}

  lemma EventPaysOnce(s: State, w: SessionId, x: ReadStep, tid: TaskId)
    requires OnEvent(x)
    requires ReadEnabled(s, w, x) && WorkerOk(s, w)
    ensures Owed(ReadApply(s, w, x), tid) + Outcomes([Read(w, x)], tid) <= Owed(s, tid)
  {}


  lemma CmdPaysOnce(s: State, c: Command, tid: TaskId)
    requires CmdEnabled(s, c) && Fresh(s, Cmd(c)) && SchedOk(s)
    requires c.Enqueue? && c.task.sessionId.Some? && c.task.sessionId.value in s.workers ==>
               WorkerOk(s, c.task.sessionId.value)
    ensures Owed(CmdApply(s, c), tid) <= Owed(s, tid)
  {
    if c.Remove? { RemovePaysOnce(s, c.sid, tid); }
    else if c.CancelTask? || c.FailRemoved? { EditPaysOnce(s, c, tid); }
  }

  lemma EditPaysOnce(s: State, c: Command, tid: TaskId)
    requires CmdEnabled(s, c) && (c.CancelTask? || c.FailRemoved?)
    ensures Owed(CmdApply(s, c), tid) <= Owed(s, tid)
  {}

  lemma RemovePaysOnce(s: State, sid: SessionId, tid: TaskId)
    ensures Owed(CmdApply(s, Remove(sid)), tid) <= Owed(s, tid)
  {}

  /** Every start of a task delivers at most one outcome, whatever crashes, kills and removals
      interleave: completions plus recoveries never outnumber starts. */
  lemma {:induction false} OutcomesAreOwed(s: State, run: seq<Step>, tid: TaskId)
    requires Inv(s) && Proper(s, run)
    ensures Legal(s, run) && Outcomes(run, tid) + Owed(Exec(s, run), tid) <= Owed(s, tid) + Starts(run, tid)
    decreases |run|
  {
    if run != [] {
      match run[0] {
        case Sched(x) =>
          SchedPaysOnce(s, x, tid);
        case Read(w, x) => ReadPaysOnce(s, w, x, tid);
        case Cmd(c) => CmdPaysOnce(s, c, tid);
      }
      StepKeepsInv(s, run[0]);
      OutcomesAreOwed(Apply(s, run[0]), run[1..], tid);
    }
  }

  /** From the empty orchestrator: outcomes <= starts == attempts <= max(1, max_attempts). */
  lemma StartedAndSettledWithinLimit(run: seq<Step>, tid: TaskId)
    requires Proper(INIT, run)
    ensures Legal(INIT, run)
    ensures Outcomes(run, tid) <= Starts(run, tid)
    ensures var s := Exec(INIT, run);
            Starts(run, tid) <= if tid in s.tasks then Limit(s.tasks[tid]) else 0
  {
    InitInv();
    RunKeepsInv(INIT, run);
    AttemptsCountStarts(INIT, run, tid);
    OutcomesAreOwed(INIT, run, tid);
    var s := Exec(INIT, run);
    if tid in s.tasks { assert TaskOk(s, tid); }
  }

  // ----- what a settled result and a recovery leave behind -----

  /** The task a completion settles names the worker that reported; it ends done or failed as the result
      says, keeps the result's text, and no other task changes.  Whether the result answers that task's
      own prompt is the subject of `Turns`. */
  lemma ResultIsCredited(s: State, w: SessionId, tid: TaskId, now: int)
    requires Reachable(s) && InCompletion(s, tid, w)
    ensures ReadEnabled(s, w, Complete(tid, now))
    ensures var s', r := ReadApply(s, w, Complete(tid, now)), s.workers[w].reader;
            && tid in s.tasks && s'.tasks.Keys == s.tasks.Keys
            && s'.tasks[tid].sessionId == Some(w) && s'.tasks[tid].attempts == s.tasks[tid].attempts
            && (s'.tasks[tid].status == Done <==> !r.isError) && (s'.tasks[tid].status == Failed <==> r.isError)
            && (if r.isError then s'.tasks[tid].error else s'.tasks[tid].resultSummary)
               == Some(Truncate(r.summary, 300))
            && (forall t :: t in s.tasks && t != tid ==> s'.tasks[t] == s.tasks[t])
            && Places(s', tid) == {}
  {
    ReachableInv(s);
    assert WorkerOk(s, w);
    SettledHasNoToken(s, w, tid, now);
  }

  lemma SettledHasNoToken(s: State, w: SessionId, tid: TaskId, now: int)
    requires Inv(s) && InCompletion(s, tid, w)
    ensures Places(ReadApply(s, w, Complete(tid, now)), tid) == {}
  {
    var s' := ReadApply(s, w, Complete(tid, now));
    assert WorkerOk(s, w);
    forall p ensures !Holds(s', tid, p) {
      if Holds(s', tid, p) {
        assert p != AtCompletion(w) && p != InQueue;
        assert Holds(s, tid, p);
        HeldOnce(s, tid, p, AtCompletion(w));
      }
    }
    forall p ensures p !in Places(s', tid) { PlacesAreHolds(s', tid, p); }
  }

  /** Recovery after a crash: the interrupted task is back in the queue, and nowhere else, exactly when
      the policy allows and an attempt is left; otherwise it has failed and no token is left. */
  lemma RecoveryRequeuesIff(s: State, w: SessionId, tid: TaskId, autoRestart: bool, now: int)
    requires Reachable(s) && InRecovery(s, tid, w)
    ensures ReadEnabled(s, w, RecoverTask(tid, autoRestart, now)) && tid in s.tasks
    ensures var s' := ReadApply(s, w, RecoverTask(tid, autoRestart, now));
            var again := autoRestart && s.tasks[tid].attempts < s.tasks[tid].maxAttempts;
            && tid in s'.tasks
            && (s'.tasks[tid].status == Queued <==> again) && (s'.tasks[tid].status == Failed <==> !again)
            && Places(s', tid) == if again then {InQueue} else {}
  {
    ReachableInv(s);
    assert WorkerOk(s, w);
    var s' := ReadApply(s, w, RecoverTask(tid, autoRestart, now));
    forall p | p != InQueue ensures p !in Places(s', tid) {
      PlacesAreHolds(s', tid, p);
      RecoveredElsewhere(s, w, tid, autoRestart, now, p);
    }
    PlacesAreHolds(s', tid, InQueue);
  }

  lemma RecoveredElsewhere(s: State, w: SessionId, tid: TaskId, autoRestart: bool, now: int, p: Place)
    requires Inv(s) && InRecovery(s, tid, w) && p != InQueue
    ensures !Holds(ReadApply(s, w, RecoverTask(tid, autoRestart, now)), tid, p)
  {
    if Holds(ReadApply(s, w, RecoverTask(tid, autoRestart, now)), tid, p) {
      assert p != AtRecovery(w) && Holds(s, tid, p);
      HeldOnce(s, tid, p, AtRecovery(w));
    }
  }
}
